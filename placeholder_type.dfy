/**
 * Placeholder inference: the kinds of the printf conversion specifiers
 * (ISO C11 section 7.21.6.1, with the POSIX `%n$` positional form and
 * Apple's `%@`) found in a format string, one per argument position.
 */
module PlaceholderTypes {
  import opened Wrappers
  import opened Text

  /** The value kinds; the raw value is the Swift type a parameter gets. */
  datatype PlaceholderType = Object | Float | Int | Char | CString | Pointer {
    function RawValue(): string {
      match this
      case Object => "String"
      case Float => "Float"
      case Int => "Int"
      case Char => "CChar"
      case CString => "UnsafePointer<CChar>"
      case Pointer => "UnsafeRawPointer"
    }
  }

  /** The kind of a slot nothing refers to: the same value as `Pointer`. */
  const Unknown: PlaceholderType := Pointer

  /** Distinct kinds have distinct raw values, so the generated parameter types tell them apart. */
  lemma RawValueInjective(a: PlaceholderType, b: PlaceholderType)
    requires a.RawValue() == b.RawValue()
    ensures a == b
  {
    match a
    case Object =>
    case Float =>
      assert a.RawValue()[0] == 'F';
    case Int =>
      assert a.RawValue()[0] == 'I';
    case Char =>
      assert a.RawValue()[0] == 'C';
    case CString =>
      assert a.RawValue()[6] == 'P';
    case Pointer =>
      assert a.RawValue()[6] == 'R';
  }

  /** `init?(formatChar:)`: the kind of a conversion character, ignoring case. */
  function FromFormatChar(c: char): (r: Option<PlaceholderType>) {
    match LowerChar(c)
    case '@' => Some(Object)
    case 'a' => Some(Float)
    case 'e' => Some(Float)
    case 'f' => Some(Float)
    case 'g' => Some(Float)
    case 'd' => Some(Int)
    case 'i' => Some(Int)
    case 'o' => Some(Int)
    case 'u' => Some(Int)
    case 'x' => Some(Int)
    case 'c' => Some(Char)
    case 's' => Some(CString)
    case 'p' => Some(Pointer)
    case _ => None
  }

  /** The conversion table, both directions: which characters give which kind, and that every other character gives none. */
  lemma FromFormatCharTable(c: char)
    ensures FromFormatChar(c) == Some(Object) <==> c == '@'
    ensures FromFormatChar(c) == Some(Float) <==> LowerChar(c) in "aefg"
    ensures FromFormatChar(c) == Some(Int) <==> LowerChar(c) in "dioux"
    ensures FromFormatChar(c) == Some(Char) <==> LowerChar(c) == 'c'
    ensures FromFormatChar(c) == Some(CString) <==> LowerChar(c) == 's'
    ensures FromFormatChar(c) == Some(Pointer) <==> LowerChar(c) == 'p'
    ensures FromFormatChar(c) == None <==> LowerChar(c) !in "@aefgdiouxcsp"
  {
  }

  /** Upper-case conversion characters denote the same kinds as lower-case ones. */
  lemma FromFormatCharIgnoresCase(c: char)
    ensures FromFormatChar(UpperChar(c)) == FromFormatChar(LowerChar(c)) == FromFormatChar(c)
  {
  }

  /** One conversion specifier as the format scanner reports it: its
      conversion character and its `n$` position, when it has one. */
  datatype FormatSpecifier = FormatSpecifier(conversion: char, position: Option<int>)

  datatype PlaceholderError = InvalidPlaceholder(previous: PlaceholderType, newType: PlaceholderType)

  // The format scanner. A specifier is a `%` not escaped by an odd number
  // of `%` before it, an optional position (a non-zero digit, more digits,
  // then `$`), at most one flag, at most one width digit, at most a `.` and
  // one precision digit, and a conversion: `@`, an integer conversion with at
  // most one length modifier, a floating-point conversion, or `c`, `s`, `p`.
  // Letters match in either case, and the matches are found left to right
  // without overlap.


  /** The number of consecutive `%` starting at `p`. */
  function PercentRun(s: string, p: nat): (n: nat)
    requires p <= |s|
    ensures p + n <= |s|
    ensures forall i :: p <= i < p + n ==> s[i] == '%'
    ensures p + n < |s| ==> s[p + n] != '%'
    decreases |s| - p
  {
    if p < |s| && s[p] == '%' then 1 + PercentRun(s, p + 1) else 0
  }

  /** The number of consecutive digits starting at `p`. */
  function DigitRun(s: string, p: nat): (n: nat)
    requires p <= |s|
    ensures p + n <= |s|
    ensures forall i :: p <= i < p + n ==> IsDigit(s[i])
    ensures p + n < |s| ==> !IsDigit(s[p + n])
    decreases |s| - p
  {
    if p < |s| && IsDigit(s[p]) then 1 + DigitRun(s, p + 1) else 0
  }


  /** `([1-9]\d*\$)`: the position and where the rest starts, when present. */
  function PositionAt(s: string, q: nat): (r: Option<(nat, nat)>)
    requires q <= |s|
    ensures r.Some? ==> q < r.value.1 <= |s|
  {
    if q < |s| && '1' <= s[q] <= '9' then
      var n := DigitRun(s, q);
      if q + n < |s| && s[q + n] == '$' then Some((DecimalValue(s[q..q + n]), q + n + 1)) else None
    else None
  }

  /** `[dioux]`, ignoring case. */
  predicate IsIntConversion(c: char) {
    var l := LowerChar(c);
    l == 'd' || l == 'i' || l == 'o' || l == 'u' || l == 'x'
  }

  /** The character at `i` is `c`, ignoring case. */
  predicate CharAt(s: string, i: nat, c: char) {
    i < |s| && LowerChar(s[i]) == c
  }

  predicate IntConversionAfter(s: string, i: nat) {
    i < |s| && IsIntConversion(s[i])
  }

  /** `(?:h|hh|l|ll|q|z|t|j)?([dioux])` at `t`: the modifiers are tried in
      this order, then none; the conversion character is the `[dioux]`. */
  function IntConversionAt(s: string, t: nat): (r: Option<(char, nat)>)
    ensures r.Some? ==> t < r.value.1 <= |s|
  {
    if CharAt(s, t, 'h') && IntConversionAfter(s, t + 1) then Some((s[t + 1], t + 2))
    else if CharAt(s, t, 'h') && CharAt(s, t + 1, 'h') && IntConversionAfter(s, t + 2) then Some((s[t + 2], t + 3))
    else if CharAt(s, t, 'l') && IntConversionAfter(s, t + 1) then Some((s[t + 1], t + 2))
    else if CharAt(s, t, 'l') && CharAt(s, t + 1, 'l') && IntConversionAfter(s, t + 2) then Some((s[t + 2], t + 3))
    else if (CharAt(s, t, 'q') || CharAt(s, t, 'z') || CharAt(s, t, 't') || CharAt(s, t, 'j')) && IntConversionAfter(s, t + 1) then Some((s[t + 1], t + 2))
    else if IntConversionAfter(s, t) then Some((s[t], t + 1))
    else None
  }

  /** `[aefg]` or `[csp]`, ignoring case. */
  predicate IsOtherConversion(c: char) {
    var l := LowerChar(c);
    l == 'a' || l == 'e' || l == 'f' || l == 'g' || l == 'c' || l == 's' || l == 'p'
  }

  /** The conversion group at `t`: the conversion character and where the match ends. */
  function ConversionAt(s: string, t: nat): (r: Option<(char, nat)>)
    ensures r.Some? ==> t < r.value.1 <= |s|
  {
    if t >= |s| then None
    else if s[t] == '@' then Some((s[t], t + 1))
    else if IntConversionAt(s, t).Some? then IntConversionAt(s, t)
    else if IsOtherConversion(s[t]) then Some((s[t], t + 1))
    else None
  }

  predicate IsFlag(c: char) {
    c == '-' || c == '+' || c == '#' || c == ' ' || c == '0'
  }

  /** Where the conversion may start after `[-+# 0]?\d?(?:\.\d)?` from `r`,
      in the order backtracking tries them (each optional part taken first). */
  function ConversionStarts(s: string, r: nat): (ts: seq<nat>)
    requires r <= |s|
    ensures forall i :: 0 <= i < |ts| ==> r <= ts[i] <= |s|
  {
    if r < |s| && IsFlag(s[r]) then WidthAndPrecision(s, r + 1) + WidthAndPrecision(s, r)
    else WidthAndPrecision(s, r)
  }

  function WidthAndPrecision(s: string, r: nat): (ts: seq<nat>)
    requires r <= |s|
    ensures forall i :: 0 <= i < |ts| ==> r <= ts[i] <= |s|
  {
    if r < |s| && IsDigit(s[r]) then Precision(s, r + 1) + Precision(s, r) else Precision(s, r)
  }

  function Precision(s: string, r: nat): (ts: seq<nat>)
    requires r <= |s|
    ensures forall i :: 0 <= i < |ts| ==> r <= ts[i] <= |s|
  {
    if r + 1 < |s| && s[r] == '.' && IsDigit(s[r + 1]) then [r + 2, r] else [r]
  }

  /** The first conversion that matches at one of the candidate starts. */
  function FirstConversion(s: string, ts: seq<nat>): (r: Option<(char, nat)>)
    ensures r.Some? ==> exists i :: 0 <= i < |ts| && ts[i] < r.value.1 <= |s|
  {
    if |ts| == 0 then None
    else if ConversionAt(s, ts[0]).Some? then ConversionAt(s, ts[0])
    else FirstConversion(s, ts[1..])
  }

  /** The part of the pattern after the `%`, at `q`: the specifier and where the match ends. */
  function SpecifierAt(s: string, q: nat): (r: Option<(FormatSpecifier, nat)>)
    requires q <= |s|
    ensures r.Some? ==> q < r.value.1 <= |s|
  {
    var positioned :=
      match PositionAt(s, q)
      case Some((n, rest)) => FirstConversion(s, ConversionStarts(s, rest))
      case None => None;
    if positioned.Some? then
      Some((FormatSpecifier(positioned.value.0, Some(PositionAt(s, q).value.0)), positioned.value.1))
    else
      match FirstConversion(s, ConversionStarts(s, q))
      case Some((c, e)) => Some((FormatSpecifier(c, None), e))
      case None => None
  }

  /** The match starting at `p`, if any: a match starts only where a run of
      `%` starts (at the beginning, or after a character other than `%`); an
      odd run ends in the `%` of the specifier, an even one is all `%%`
      escapes. */
  function MatchAt(s: string, p: nat): (r: Option<(FormatSpecifier, nat)>)
    requires p < |s|
    ensures r.Some? ==> p < r.value.1 <= |s|
  {
    if s[p] == '%' && (p == 0 || s[p - 1] != '%') then
      var run := PercentRun(s, p);
      if run % 2 == 1 then SpecifierAt(s, p + run) else None
    else None
  }

  /** The matches from `p` on, left to right, each search resuming where the
      previous match ended. A match starts only at a `%`. */
  function ScanFrom(s: string, p: nat): seq<FormatSpecifier>
    decreases |s| - p, 1
  {
    if p >= |s| then []
    else if s[p] != '%' then ScanFrom(s, p + 1)
    else ScanMatch(s, p)
  }

  /** The scan at a `%`: the match there, if any, and the rest after it. */
  function ScanMatch(s: string, p: nat): seq<FormatSpecifier>
    requires p < |s|
    decreases |s| - p, 0
  {
    match MatchAt(s, p)
    case Some((spec, e)) => [spec] + ScanFrom(s, e)
    case None => ScanFrom(s, p + 1)
  }

  /** The conversion specifiers of a format string, left to right. */
  function FormatSpecifiers(formatString: string): seq<FormatSpecifier> {
    ScanFrom(formatString, 0)
  }

  /** Text without `%` contributes no specifier. */
  lemma {:induction false} TextWithoutPercentSkipped(s: string, p: nat, q: nat)
    requires p <= q <= |s|
    requires forall i :: p <= i < q ==> s[i] != '%'
    ensures ScanFrom(s, p) == ScanFrom(s, q)
    decreases q - p
  {
    if p < q {
      TextWithoutPercentSkipped(s, p + 1, q);
    }
  }

  /** Inside a run of `%` no match starts. */
  lemma {:induction false} InsideRunSkipped(s: string, p: nat, q: nat)
    requires 0 < p <= q <= |s|
    requires forall i :: p - 1 <= i < q ==> s[i] == '%'
    ensures ScanFrom(s, p) == ScanFrom(s, q)
    decreases q - p
  {
    if p < q {
      InsideRunSkipped(s, p + 1, q);
    }
  }

  lemma NoMatchSkipped(s: string, p: nat)
    requires p < |s| && MatchAt(s, p) == None
    ensures ScanFrom(s, p) == ScanFrom(s, p + 1)
  {
  }

  lemma EvenRunNoMatch(s: string, p: nat)
    requires p < |s| && PercentRun(s, p) % 2 == 0
    ensures MatchAt(s, p) == None
  {
  }

  /** An even run of `%` is all `%%` escapes: it never yields a specifier,
      whatever follows it. */
  lemma EscapedPercentsSkipped(s: string, p: nat)
    requires p < |s| && s[p] == '%' && (p == 0 || s[p - 1] != '%')
    requires PercentRun(s, p) % 2 == 0
    ensures ScanFrom(s, p) == ScanFrom(s, p + PercentRun(s, p))
  {
    var q := p + PercentRun(s, p);
    calc {
      ScanFrom(s, p);
    == { EvenRunNoMatch(s, p); NoMatchSkipped(s, p); }
      ScanFrom(s, p + 1);
    == { InsideRunSkipped(s, p + 1, q); }
      ScanFrom(s, q);
    }
  }

  /** A `%` directly followed by a conversion character is one specifier
      without position. */
  lemma SimpleSpecifier(s: string, p: nat)
    requires p + 1 < |s| && s[p] == '%' && (p == 0 || s[p - 1] != '%')
    requires s[p + 1] == '@' || IsIntConversion(s[p + 1]) || IsOtherConversion(s[p + 1])
    ensures ScanFrom(s, p) == [FormatSpecifier(s[p + 1], None)] + ScanFrom(s, p + 2)
  {
    calc {
      ScanFrom(s, p);
    == { SimpleSpecifierMatch(s, p); MatchTaken(s, p); }
      [FormatSpecifier(s[p + 1], None)] + ScanFrom(s, p + 2);
    }
  }

  lemma SimpleSpecifierMatch(s: string, p: nat)
    requires p + 1 < |s| && s[p] == '%' && (p == 0 || s[p - 1] != '%')
    requires s[p + 1] == '@' || IsIntConversion(s[p + 1]) || IsOtherConversion(s[p + 1])
    ensures MatchAt(s, p) == Some((FormatSpecifier(s[p + 1], None), p + 2))
  {
    calc {
      MatchAt(s, p);
    == { assert PercentRun(s, p) == 1; OddRunMatch(s, p); }
      SpecifierAt(s, p + 1);
    == { SimpleSpecifierBody(s, p + 1); }
      Some((FormatSpecifier(s[p + 1], None), p + 2));
    }
  }

  lemma OddRunMatch(s: string, p: nat)
    requires p < |s| && s[p] == '%' && (p == 0 || s[p - 1] != '%')
    requires PercentRun(s, p) % 2 == 1
    ensures MatchAt(s, p) == SpecifierAt(s, p + PercentRun(s, p))
  {
  }

  lemma MatchTaken(s: string, p: nat)
    requires p < |s| && MatchAt(s, p).Some?
    ensures ScanFrom(s, p) == [MatchAt(s, p).value.0] + ScanFrom(s, MatchAt(s, p).value.1)
  {
  }

  lemma SimpleSpecifierBody(s: string, q: nat)
    requires q < |s|
    requires s[q] == '@' || IsIntConversion(s[q]) || IsOtherConversion(s[q])
    ensures SpecifierAt(s, q) == Some((FormatSpecifier(s[q], None), q + 1))
  {
    assert PositionAt(s, q) == None;
    assert ConversionStarts(s, q) == [q];
    assert ConversionAt(s, q) == Some((s[q], q + 1));
  }

  // The reference definition: which slot every specifier is assigned to

  /** The kind of a recognised conversion character. */
  function KindOf(c: char): PlaceholderType {
    FromFormatChar(c).GetOr(Unknown)
  }

  predicate NonPositional(spec: FormatSpecifier) {
    FromFormatChar(spec.conversion).Some? && spec.position.None?
  }

  /** How many recognised non-positional specifiers come before index `n`. */
  function NonPositionalBefore(specs: seq<FormatSpecifier>, n: nat): nat
    requires n <= |specs|
  {
    if n == 0 then 0
    else NonPositionalBefore(specs, n - 1) + (if NonPositional(specs[n - 1]) then 1 else 0)
  }

  /** The 1-based position specifier `j` is assigned to: its own `n$`, or the
      next value of the implicit counter, which starts at 1 and counts only
      recognised non-positional specifiers. */
  function PositionOf(specs: seq<FormatSpecifier>, j: nat): int
    requires j < |specs|
  {
    match specs[j].position
    case Some(p) => p
    case None => 1 + NonPositionalBefore(specs, j)
  }

  /** Specifier `j` writes its kind into slot `p`. */
  predicate Assigns(specs: seq<FormatSpecifier>, j: nat, p: int)
    requires j < |specs|
  {
    FromFormatChar(specs[j].conversion).Some? && PositionOf(specs, j) == p && p > 0
  }

  /** What slot `p` holds once the first `n` specifiers are processed: the
      kind of the last of them assigned to `p`, or `Unknown`. */
  function SlotAfter(specs: seq<FormatSpecifier>, n: nat, p: int): PlaceholderType
    requires n <= |specs|
  {
    if n == 0 then Unknown
    else if Assigns(specs, n - 1, p) then KindOf(specs[n - 1].conversion)
    else SlotAfter(specs, n - 1, p)
  }

  /** The highest position the first `n` specifiers refer to (0 if none). */
  function MaxPosition(specs: seq<FormatSpecifier>, n: nat): nat
    requires n <= |specs|
  {
    if n == 0 then 0
    else
      var m := MaxPosition(specs, n - 1);
      var p := PositionOf(specs, n - 1);
      if FromFormatChar(specs[n - 1].conversion).Some? && p > m then p else m
  }

  /** Specifier `j` meets a slot already holding a different concrete kind. */
  predicate Conflict(specs: seq<FormatSpecifier>, j: nat)
    requires j < |specs|
  {
    var p := PositionOf(specs, j);
    Assigns(specs, j, p)
    && SlotAfter(specs, j, p) != Unknown
    && SlotAfter(specs, j, p) != KindOf(specs[j].conversion)
  }

  function FirstConflictFrom(specs: seq<FormatSpecifier>, j: nat): (r: Option<nat>)
    requires j <= |specs|
    ensures r.None? ==> forall i :: j <= i < |specs| ==> !Conflict(specs, i)
    ensures r.Some? ==>
      && j <= r.value < |specs| && Conflict(specs, r.value)
      && forall i :: j <= i < r.value ==> !Conflict(specs, i)
    decreases |specs| - j
  {
    if j == |specs| then None
    else if Conflict(specs, j) then Some(j)
    else FirstConflictFrom(specs, j + 1)
  }

  /** The inferred placeholder list: the first conflict is an error;
      otherwise slot `p` (1-based) holds `SlotAfter(specs, |specs|, p)`, up to
      the highest position referred to. */
  function Infer(specs: seq<FormatSpecifier>): (r: Result<seq<PlaceholderType>, PlaceholderError>)
    ensures r.Failure? <==> exists j :: 0 <= j < |specs| && Conflict(specs, j)
  {
    match FirstConflictFrom(specs, 0)
    case Some(j) =>
      Failure(InvalidPlaceholder(SlotAfter(specs, j, PositionOf(specs, j)), KindOf(specs[j].conversion)))
    case None =>
      Success(seq(MaxPosition(specs, |specs|), i requires 0 <= i => SlotAfter(specs, |specs|, i + 1)))
  }

  lemma {:induction false} SlotBeyondMaxIsUnknown(specs: seq<FormatSpecifier>, n: nat, p: int)
    requires n <= |specs| && p > MaxPosition(specs, n)
    ensures SlotAfter(specs, n, p) == Unknown
  {
    if n > 0 {
      SlotBeyondMaxIsUnknown(specs, n - 1, p);
    }
  }

  /** `placeholders(fromFormat:)`: the specifiers the scanner finds, then
      the position/conflict loop over them. */
  method PlaceholdersFromFormat(formatString: string) returns (r: Result<seq<PlaceholderType>, PlaceholderError>)
    ensures r == Infer(FormatSpecifiers(formatString))
  {
    var chars := FormatSpecifiers(formatString);
    r := PlaceholdersFromSpecifiers(chars);
  }

  /** The loop of `placeholders(fromFormat:)`: each recognised specifier
      takes its `n$` position or the next implicit one, the list grows with
      `Unknown` up to that position, and a slot already holding a different
      kind other than `Unknown` is an error. */
  method PlaceholdersFromSpecifiers(chars: seq<FormatSpecifier>) returns (r: Result<seq<PlaceholderType>, PlaceholderError>)
    ensures r == Infer(chars)
  {
    var list: seq<PlaceholderType> := [];
    var nextNonPositional := 1;
    for i := 0 to |chars|
      invariant nextNonPositional == 1 + NonPositionalBefore(chars, i)
      invariant SlotsAfter(chars, i, list)
      invariant FirstConflictFrom(chars, 0) == FirstConflictFrom(chars, i)
    {
      var placeholderType := FromFormatChar(chars[i].conversion);
      if placeholderType.Some? {
        var insertionPos: int;
        if chars[i].position.Some? {
          insertionPos := chars[i].position.value;
        } else {
          insertionPos := nextNonPositional;
          nextNonPositional := nextNonPositional + 1;
        }
        assert insertionPos == PositionOf(chars, i);
        if insertionPos > 0 {
          while |list| <= insertionPos - 1
            invariant |list| == MaxPosition(chars, i) || MaxPosition(chars, i) < |list| <= insertionPos
            invariant forall q :: 0 <= q < |list| ==> list[q] == SlotAfter(chars, i, q + 1)
            decreases insertionPos - |list|
          {
            SlotBeyondMaxIsUnknown(chars, i, |list| + 1);
            ghost var shorter := list;
            list := list + [Unknown];
            assert forall q :: 0 <= q < |list| ==> list[q] == if q < |shorter| then shorter[q] else Unknown;
          }
          var previous := list[insertionPos - 1];
          if !(previous == Unknown || previous == placeholderType.value) {
            assert Conflict(chars, i);
            return Failure(InvalidPlaceholder(previous, placeholderType.value));
          }
          WriteSlot(chars, i, list);
          list := list[insertionPos - 1 := placeholderType.value];
        } else {
          SkipSpecifier(chars, i, list);
        }
      } else {
        SkipSpecifier(chars, i, list);
      }
    }
    assert list == seq(MaxPosition(chars, |chars|), q requires 0 <= q => SlotAfter(chars, |chars|, q + 1));
    r := Success(list);
  }

  /** `list` holds what the slots hold after the first `n` specifiers. */
  ghost predicate SlotsAfter(specs: seq<FormatSpecifier>, n: nat, list: seq<PlaceholderType>)
    requires n <= |specs|
  {
    |list| == MaxPosition(specs, n) && forall q :: 0 <= q < |list| ==> list[q] == SlotAfter(specs, n, q + 1)
  }

  /** A specifier that assigns no slot leaves every slot as it was. */
  lemma SkipSpecifier(specs: seq<FormatSpecifier>, i: nat, list: seq<PlaceholderType>)
    requires i < |specs| && SlotsAfter(specs, i, list)
    requires !Assigns(specs, i, PositionOf(specs, i))
    ensures SlotsAfter(specs, i + 1, list) && !Conflict(specs, i)
  {
  }

  /** Writing the kind of specifier `i` into its (already allocated) slot. */
  lemma WriteSlot(specs: seq<FormatSpecifier>, i: nat, list: seq<PlaceholderType>)
    requires i < |specs| && Assigns(specs, i, PositionOf(specs, i))
    requires PositionOf(specs, i) <= |list|
    requires |list| == MaxPosition(specs, i) || MaxPosition(specs, i) < |list| == PositionOf(specs, i)
    requires forall q :: 0 <= q < |list| ==> list[q] == SlotAfter(specs, i, q + 1)
    requires list[PositionOf(specs, i) - 1] == Unknown || list[PositionOf(specs, i) - 1] == KindOf(specs[i].conversion)
    ensures SlotsAfter(specs, i + 1, list[PositionOf(specs, i) - 1 := KindOf(specs[i].conversion)])
    ensures !Conflict(specs, i)
  {
    StepSlots(specs, i);
  }

  /** What processing specifier `i` does to every slot. */
  lemma StepSlots(specs: seq<FormatSpecifier>, i: nat)
    requires i < |specs|
    ensures forall q :: SlotAfter(specs, i + 1, q) == (if Assigns(specs, i, q) then KindOf(specs[i].conversion) else SlotAfter(specs, i, q))
  {
  }

  lemma {:induction false} FirstConflictSkips(specs: seq<FormatSpecifier>, j: nat, i: nat)
    requires j <= i <= |specs|
    requires forall k :: j <= k < i ==> !Conflict(specs, k)
    ensures FirstConflictFrom(specs, j) == FirstConflictFrom(specs, i)
    decreases i - j
  {
    if j < i {
      FirstConflictSkips(specs, j + 1, i);
    }
  }

  // Properties of the inferred list

  /** The result is exactly as long as the highest position referred to:
      every assigned position is covered, and the last slot is referred to. */
  lemma {:induction false} MaxPositionIsHighest(specs: seq<FormatSpecifier>, n: nat)
    requires n <= |specs|
    ensures forall j :: 0 <= j < n && Assigns(specs, j, PositionOf(specs, j)) ==> PositionOf(specs, j) <= MaxPosition(specs, n)
    ensures MaxPosition(specs, n) > 0 ==> exists j :: 0 <= j < n && Assigns(specs, j, MaxPosition(specs, n))
  {
    if n > 0 {
      MaxPositionIsHighest(specs, n - 1);
      if MaxPosition(specs, n) != MaxPosition(specs, n - 1) {
        assert Assigns(specs, n - 1, MaxPosition(specs, n));
      }
    }
  }

  /** A slot that no specifier refers to holds `Unknown`. */
  lemma {:induction false} UnreferencedSlotIsUnknown(specs: seq<FormatSpecifier>, n: nat, p: int)
    requires n <= |specs|
    requires forall j :: 0 <= j < n ==> !Assigns(specs, j, p)
    ensures SlotAfter(specs, n, p) == Unknown
  {
    if n > 0 {
      UnreferencedSlotIsUnknown(specs, n - 1, p);
    }
  }

  /** On success, never-referenced slots are filled with `Unknown`. */
  lemma InferFillsGapsWithUnknown(specs: seq<FormatSpecifier>, p: int)
    requires Infer(specs).Success? && 1 <= p <= |Infer(specs).value|
    requires forall j :: 0 <= j < |specs| ==> !Assigns(specs, j, p)
    ensures Infer(specs).value[p - 1] == Unknown
  {
    UnreferencedSlotIsUnknown(specs, |specs|, p);
  }

  lemma {:induction false} NonPositionalCount(specs: seq<FormatSpecifier>, n: nat)
    requires n <= |specs|
    requires forall j :: 0 <= j < |specs| ==> NonPositional(specs[j])
    ensures NonPositionalBefore(specs, n) == n
  {
    if n > 0 {
      NonPositionalCount(specs, n - 1);
    }
  }

  lemma {:induction false} NonPositionalSlots(specs: seq<FormatSpecifier>, n: nat, p: int)
    requires n <= |specs|
    requires forall j :: 0 <= j < |specs| ==> NonPositional(specs[j])
    ensures SlotAfter(specs, n, p) == if 1 <= p <= n then KindOf(specs[p - 1].conversion) else Unknown
  {
    if n > 0 {
      NonPositionalSlots(specs, n - 1, p);
      NonPositionalCount(specs, n - 1);
      assert NonPositional(specs[n - 1]);
      assert PositionOf(specs, n - 1) == n;
      if p == n {
        assert Assigns(specs, n - 1, p);
      } else {
        assert !Assigns(specs, n - 1, p);
      }
    }
  }

  lemma {:induction false} NonPositionalMax(specs: seq<FormatSpecifier>, n: nat)
    requires n <= |specs|
    requires forall j :: 0 <= j < |specs| ==> NonPositional(specs[j])
    ensures MaxPosition(specs, n) == n
  {
    if n > 0 {
      NonPositionalMax(specs, n - 1);
      NonPositionalCount(specs, n - 1);
      assert NonPositional(specs[n - 1]);
    }
  }

  /** Specifiers without `n$` take positions 1, 2, 3, ... in scan order, so a
      format using only those yields their kinds left to right. */
  lemma NonPositionalScanOrder(specs: seq<FormatSpecifier>)
    requires forall j :: 0 <= j < |specs| ==> NonPositional(specs[j])
    ensures Infer(specs) == Success(seq(|specs|, j requires 0 <= j < |specs| => KindOf(specs[j].conversion)))
  {
    forall j | 0 <= j < |specs| ensures !Conflict(specs, j) {
      NonPositionalNoConflict(specs, j);
    }
    assert FirstConflictFrom(specs, 0) == None;
    NonPositionalMax(specs, |specs|);
    var slots := seq(MaxPosition(specs, |specs|), i requires 0 <= i => SlotAfter(specs, |specs|, i + 1));
    forall q | 0 <= q < |specs|
      ensures slots[q] == KindOf(specs[q].conversion)
    {
      NonPositionalSlots(specs, |specs|, q + 1);
    }
    assert slots == seq(|specs|, j requires 0 <= j < |specs| => KindOf(specs[j].conversion));
  }

  /** A specifier without position takes a fresh slot, so it never conflicts. */
  lemma NonPositionalNoConflict(specs: seq<FormatSpecifier>, j: nat)
    requires j < |specs|
    requires forall j :: 0 <= j < |specs| ==> NonPositional(specs[j])
    ensures !Conflict(specs, j)
  {
    NonPositionalCount(specs, j);
    NonPositionalSlots(specs, j, j + 1);
  }

  /** `%p` fills its slot with the same value as `Unknown`, so any later kind may overwrite it. */
  lemma PointerSlotMayBeOverwritten()
    ensures Infer([FormatSpecifier('p', None), FormatSpecifier('d', Some(1))]) == Success([Int])
  {
    var specs := [FormatSpecifier('p', None), FormatSpecifier('d', Some(1))];
    assert !Conflict(specs, 0);
    assert SlotAfter(specs, 1, 1) == Pointer;
    assert !Conflict(specs, 1);
    assert FirstConflictFrom(specs, 0) == None;
    assert MaxPosition(specs, 2) == 1;
    assert SlotAfter(specs, 2, 1) == Int;
    assert Infer(specs).value == [Int];
  }

  /** The documented example: "I give %d apples to %@" gives [Int, Object]. */
  lemma DocumentedExample()
    ensures Infer(FormatSpecifiers("I give %d apples to %@")) == Success([Int, Object])
  {
    var specs := [FormatSpecifier('d', None), FormatSpecifier('@', None)];
    calc {
      Infer(FormatSpecifiers("I give %d apples to %@"));
    == { DocumentedExampleScan(); }
      Infer(specs);
    == { NonPositionalScanOrder(specs); }
      Success(seq(|specs|, j requires 0 <= j < |specs| => KindOf(specs[j].conversion)));
    == { assert seq(|specs|, j requires 0 <= j < |specs| => KindOf(specs[j].conversion)) == [Int, Object]; }
      Success([Int, Object]);
    }
  }

  /** The scan of the documented example: `%d`, then `%@`, both without position. */
  lemma DocumentedExampleScan()
    ensures FormatSpecifiers("I give %d apples to %@") == [FormatSpecifier('d', None), FormatSpecifier('@', None)]
  {
    var s := "I give %d apples to %@";
    assert |s| == 22 && s[7] == '%' && s[8] == 'd' && s[20] == '%' && s[21] == '@';
    ScanSkipsTwoSpecifiers(s, 7, 20);
  }

  /** A text with exactly two specifiers without position, at `p` and `q`. */
  lemma ScanSkipsTwoSpecifiers(s: string, p: nat, q: nat)
    requires p + 2 <= q && q + 2 == |s|
    requires s[p] == '%' && s[q] == '%'
    requires s[p + 1] == '@' || IsIntConversion(s[p + 1]) || IsOtherConversion(s[p + 1])
    requires s[q + 1] == '@' || IsIntConversion(s[q + 1]) || IsOtherConversion(s[q + 1])
    requires forall i :: 0 <= i < p ==> s[i] != '%'
    requires forall i :: p + 2 <= i < q ==> s[i] != '%'
    ensures FormatSpecifiers(s) == [FormatSpecifier(s[p + 1], None), FormatSpecifier(s[q + 1], None)]
  {
    var first := FormatSpecifier(s[p + 1], None);
    var second := FormatSpecifier(s[q + 1], None);
    calc {
      FormatSpecifiers(s);
    == { TextThenSpecifier(s, 0, p); }
      [first] + ScanFrom(s, p + 2);
    == { TextThenSpecifier(s, p + 2, q); }
      [first] + ([second] + ScanFrom(s, q + 2));
    == { assert ScanFrom(s, q + 2) == []; }
      [first, second];
    }
  }

  /** Text without `%` followed by a specifier without position at `p`. */
  lemma TextThenSpecifier(s: string, a: nat, p: nat)
    requires a <= p && p + 1 < |s| && s[p] == '%' && (p == 0 || s[p - 1] != '%')
    requires s[p + 1] == '@' || IsIntConversion(s[p + 1]) || IsOtherConversion(s[p + 1])
    requires forall i :: a <= i < p ==> s[i] != '%'
    ensures ScanFrom(s, a) == [FormatSpecifier(s[p + 1], None)] + ScanFrom(s, p + 2)
  {
    TextWithoutPercentSkipped(s, a, p);
    SimpleSpecifier(s, p);
  }

  /** Referring to one position twice with the same kind is accepted. */
  lemma SameKindTwiceAccepted()
    ensures Infer([FormatSpecifier('@', None), FormatSpecifier('@', None), FormatSpecifier('@', Some(1))]) == Success([Object, Object])
  {
    var specs := [FormatSpecifier('@', None), FormatSpecifier('@', None), FormatSpecifier('@', Some(1))];
    assert PositionOf(specs, 1) == 2;
    assert !Conflict(specs, 0) && !Conflict(specs, 1);
    assert SlotAfter(specs, 2, 1) == Object;
    assert !Conflict(specs, 2);
    assert FirstConflictFrom(specs, 0) == None;
    assert MaxPosition(specs, 3) == 2;
    assert SlotAfter(specs, 3, 1) == Object && SlotAfter(specs, 3, 2) == Object;
    assert Infer(specs).value == [Object, Object];
  }

  /** Two different concrete kinds at one position are rejected, naming both. */
  lemma DifferentKindsRejected()
    ensures Infer([FormatSpecifier('@', None), FormatSpecifier('d', Some(1))]) == Failure(InvalidPlaceholder(Object, Int))
  {
    var specs := [FormatSpecifier('@', None), FormatSpecifier('d', Some(1))];
    assert !Conflict(specs, 0);
    assert SlotAfter(specs, 1, 1) == Object;
    assert Conflict(specs, 1);
  }
}
