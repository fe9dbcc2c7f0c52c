/** `camelCase(delimiter:upper:)`: joins the delimiter-separated words of a name into camel case. */
module ConvertCasing {
  import opened Text

  /** `reduce("", +)`: the pieces concatenated left to right. */
  function Concat(parts: seq<string>): string
    decreases |parts|
  {
    if |parts| == 0 then "" else Concat(parts[..|parts| - 1]) + parts[|parts| - 1]
  }

  /** The first word lower-cased unless `upper`; every other word capitalized. */
  function Word(segment: string, offset: nat, upper: bool): string {
    if offset == 0 && !upper then Lowercased(segment) else Capitalized(segment)
  }

  function Words(segments: seq<string>, upper: bool): (r: seq<string>)
    ensures |r| == |segments| && forall i :: 0 <= i < |r| ==> r[i] == Word(segments[i], i, upper)
  {
    seq(|segments|, i requires 0 <= i < |segments| => Word(segments[i], i, upper))
  }

  /** The name unchanged when the delimiter does not occur in it; otherwise
      its non-empty words, transformed, without the delimiters. */
  function CamelCase(s: string, delimiter: char, upper: bool): string {
    if delimiter in s then Concat(Words(Split(s, delimiter), upper)) else s
  }

  /** Case mapping never turns another character into a non-letter. */
  lemma WordKeepsNonLetterOut(segment: string, offset: nat, upper: bool, d: char)
    requires !IsAsciiLetter(d) && d !in segment
    ensures d !in Word(segment, offset, upper)
  {
    var w := Word(segment, offset, upper);
    forall i | 0 <= i < |w| ensures w[i] != d {
      assert w[i] == LowerChar(segment[i]) || w[i] == UpperChar(segment[i]);
    }
  }

  lemma {:induction false} ConcatExcludes(parts: seq<string>, d: char)
    requires forall i :: 0 <= i < |parts| ==> d !in parts[i]
    ensures d !in Concat(parts)
    decreases |parts|
  {
    if |parts| > 0 {
      ConcatExcludes(parts[..|parts| - 1], d);
    }
  }

  /** A name without the delimiter comes back unchanged, whatever `upper` says. */
  lemma NoDelimiterUnchanged(s: string, d: char, upper: bool)
    requires d !in s
    ensures CamelCase(s, d, upper) == s
  {
  }

  /** When the delimiter is not a letter, none is left in the result. */
  lemma NoDelimiterInResult(s: string, d: char, upper: bool)
    requires !IsAsciiLetter(d)
    ensures d !in CamelCase(s, d, upper)
  {
    if d in s {
      var segments := Split(s, d);
      SplitFacts(s, d);
      var words := Words(segments, upper);
      forall i | 0 <= i < |words| ensures d !in words[i] {
        WordKeepsNonLetterOut(segments[i], i, upper, d);
      }
      ConcatExcludes(words, d);
    }
  }

  /** Converting a converted name again changes nothing. */
  lemma CamelCaseIdempotent(s: string, d: char, upper: bool, upper2: bool)
    requires !IsAsciiLetter(d)
    ensures CamelCase(CamelCase(s, d, upper), d, upper2) == CamelCase(s, d, upper)
  {
    NoDelimiterInResult(s, d, upper);
  }

  lemma {:induction false} ConcatPrefix(parts: seq<string>)
    requires |parts| > 0
    ensures HasPrefix(Concat(parts), parts[0])
    decreases |parts|
  {
    if |parts| > 1 {
      ConcatPrefix(parts[..|parts| - 1]);
    }
  }

  /** With `upper` false the result starts with the first word lower-cased,
      with `upper` true it starts with the first word capitalized. */
  lemma FirstWord(s: string, d: char, upper: bool)
    requires d in s && |Split(s, d)| > 0
    ensures HasPrefix(CamelCase(s, d, upper), if upper then Capitalized(Split(s, d)[0]) else Lowercased(Split(s, d)[0]))
  {
    ConcatPrefix(Words(Split(s, d), upper));
  }

  /** Empty words are dropped: a delimiter at the start changes nothing. */
  lemma LeadingDelimiterDropped(s: string, d: char, upper: bool)
    requires d in s
    ensures CamelCase([d] + s, d, upper) == CamelCase(s, d, upper)
  {
    assert ([d] + s)[1..] == s;
    assert SplitKeeping([d] + s, d) == [""] + SplitKeeping(s, d);
    assert ([""] + SplitKeeping(s, d))[1..] == SplitKeeping(s, d);
  }

  /** A digit starts a word inside a segment: "a-1st" becomes "a1St". */
  lemma DigitStartsWord()
    ensures CamelCase("a-1st", '-', false) == "a1St"
  {
    var s := "a-1st";
    assert s[1..] == "-1st" && s[2..] == "1st" && "-1st"[1..] == "1st";
    assert SplitKeeping("-1st", '-') == [""] + SplitKeeping("1st", '-');
    SplitKeepingPrefix("1st", "", '-');
    assert "1st" + "" == "1st";
    assert SplitKeeping("1st", '-') == ["1st"];
    var rest := SplitKeeping("-1st", '-');
    assert rest == ["", "1st"];
    assert rest[0] == "" && rest[1..] == ["1st"];
    SplitKeepingPrefix("a", "-1st", '-');
    assert "a" + "-1st" == s && "a" + "" == "a";
    assert SplitKeeping(s, '-') == ["a", "1st"];
    assert NonEmpty(["a", "1st"]) == ["a"] + NonEmpty(["1st"]);
    assert NonEmpty(["1st"]) == ["1st"] + NonEmpty([]);
    assert Split(s, '-') == ["a", "1st"];
    CapitalizedExamples();
    var w := Words(["a", "1st"], false);
    assert w[0] == Lowercased("a") == "a";
    assert w[1] == Capitalized("1st") == "1St";
    assert w == ["a", "1St"];
    assert w[..1] == ["a"] && w[..1][..0] == [];
    assert Concat(w[..1]) == "a";
    assert Concat(w) == "a" + "1St" == "a1St";
    assert s[1] == '-' && '-' in s;
  }
}
