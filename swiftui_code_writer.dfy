/**
 * The SwiftUI mapping: an extension of `SwiftUI.Text` with one nested
 * `struct` per sub-collection (named with a `StringsNamespace` suffix) and
 * one static member per entry. An entry with an object placeholder also
 * gets a variant that splices caller-supplied `Text` values into the
 * localized text, found through marker strings in the formatted string.
 */
module SwiftUIWriter {
  import opened Text
  import opened PlaceholderTypes
  import opened StringsModel
  import opened SwiftCodeWriting
  import opened GeneratorNames

  /** The type name of a namespace: camel case, upper, `StringsNamespace` appended, escaped. */
  function NamespaceTypeName(naming: Naming, name: string): string {
    naming.swiftIdentifier(naming.camelCase(name, true) + "StringsNamespace")
  }

  /** The arguments after the key: `, comment: <literal>` for a non-empty comment, nothing otherwise. */
  function TextArguments(comment: string): string {
    if comment != "" then ", comment: " + MakeStringLiteral(comment) else ""
  }

  /** The comment argument is present exactly when the comment is not empty. */
  lemma {:induction false} TextArgumentsPresence(comment: string)
    ensures TextArguments(comment) == "" <==> comment == ""
    ensures comment != "" ==> HasPrefix(TextArguments(comment), ", comment: \"")
  {
    if comment != "" {
      StringLiteralShape(comment);
      var lit := MakeStringLiteral(comment);
      assert TextArguments(comment)[..12] == ", comment: " + [lit[0]];
    }
  }

  /** `static var <member>: Text { Text("<key>"<arguments>) }`. */
  function StaticTextVar(member: string, key: string, comment: string): string {
    "static var " + member + ": Text { Text(\"" + key + "\"" + TextArguments(comment) + ") }"
  }

  /** `static func <member>(<parameters>) -> Text`. */
  function StaticTextFunc(member: string, parameters: string): string {
    "static func " + member + "(" + parameters + ") -> Text"
  }

  /** The body of an entry's function: look the format up, fill it in, wrap it verbatim. */
  function FormatTextBody(level: nat, e: StringsEntry): seq<Line> {
    [Line(level, "let format = " + LocalizedStringCall(e.key, MakeStringLiteral(e.comment))),
     Line(level, "let string = String(format: format, " + ParameterUsage(|e.placeholders|) + ")"),
     Line(level, "return Text(verbatim: string)")]
  }

  /** The members an entry becomes: its doc comment, then a static variable,
      or a function (and its splicing variant when a placeholder is an object). */
  function EntryLines(e: StringsEntry, level: nat, lib: bool, naming: Naming): seq<Line> {
    var memberName := MemberName(naming, e.key);
    if |e.placeholders| == 0 then
      DocComment(level, e.comment) + [Line(level, Declaration(lib, StaticTextVar(memberName, e.key, e.comment)))]
    else
      DocComment(level, e.comment) +
      Block(level, Declaration(lib, StaticTextFunc(memberName, Parameters(e.placeholders))), FormatTextBody(level + 1, e)) +
      (if Object in e.placeholders then ConcatenationLines(e, level, memberName) else [])
  }

  /** A sub-collection: a blank line, a static variable giving its type and
      its struct, `public` when `pub`. Everything below it is public exactly
      for a library. */
  function NamespaceLines(name: string, child: StringsCollection, level: nat, lib: bool, pub: bool, naming: Naming): seq<Line>
    decreases child, 4
  {
    var variableName := Identifier(naming, name, false);
    var typeName := NamespaceTypeName(naming, name);
    [Line(level, "")] + [Line(level, Declaration(pub, NamespaceVar(variableName, typeName)))] +
    Block(level, Declaration(pub, StructHeader(typeName)), StringsLines(child, level + 1, lib, lib, naming))
  }

  function ItemLines(c: StringsCollection, m: Member, level: nat, lib: bool, pub: bool, naming: Naming): seq<Line>
    requires m.NamespaceMember? ==> m.name in c.subCollections
    decreases c, 0
  {
    match m
    case NamespaceMember(name) => NamespaceLines(name, c.subCollections[name], level, lib, pub, naming)
    case EntryMember(e) => EntryLines(e, level, lib, naming)
  }

  function MemberLines(c: StringsCollection, k: nat, level: nat, lib: bool, pub: bool, naming: Naming): seq<Line>
    requires k < MemberCount(c)
    decreases c, 1
  {
    ItemLines(c, MemberAt(c, k), level, lib, pub, naming)
  }

  function MembersLines(c: StringsCollection, n: nat, level: nat, lib: bool, pub: bool, naming: Naming): seq<Line>
    requires n <= MemberCount(c)
    decreases c, 2, n
  {
    if n == 0 then [] else MembersLines(c, n - 1, level, lib, pub, naming) + MemberLines(c, n - 1, level, lib, pub, naming)
  }

  /** `writeStrings`: the sub-collections in ascending name order, then the
      entries; `pub` says whether this level's namespaces are public. */
  function StringsLines(c: StringsCollection, level: nat, lib: bool, pub: bool, naming: Naming): seq<Line>
    decreases c, 3
  {
    MembersLines(c, MemberCount(c), level, lib, pub, naming)
  }

  /** The whole file: the import, a blank line and the extension of `Text`. */
  function SwiftUICode(strings: StringsCollection, lib: bool, pub: bool, naming: Naming): string {
    Render("", [Line(0, "import SwiftUI"), Line(0, "")] +
      Block(0, Declaration(lib, "extension SwiftUI.Text"), StringsLines(strings, 1, lib, pub, naming)))
  }

  /** The file is the import line, a blank line, and the extension's header,
      `public` exactly for a library; it ends with the extension's closing brace. */
  lemma {:induction false} SwiftUICodeFrame(strings: StringsCollection, lib: bool, pub: bool, naming: Naming)
    ensures HasPrefix(SwiftUICode(strings, lib, pub, naming), "import SwiftUI" + "\n\n" + Declaration(lib, "extension SwiftUI.Text") + " {")
    ensures var code := SwiftUICode(strings, lib, pub, naming); |code| >= 2 && code[|code| - 2..] == "\n}"
  {
    RenderFrameAfterBlank("import SwiftUI", Declaration(lib, "extension SwiftUI.Text"), StringsLines(strings, 1, lib, pub, naming));
  }

  // The text concatenation variant

  /** `⚠️OWOWGENERATE PLACEHOLDER <index>⚠️`, the warning sign written with its variation selector. */
  function Marker(index: nat): string {
    "\U{26A0}\U{FE0F}OWOWGENERATE PLACEHOLDER " + NatToString(index) + "\U{26A0}\U{FE0F}"
  }

  /** Different placeholders get different markers. */
  lemma {:induction false} MarkersDistinct(i: nat, j: nat)
    requires i != j
    ensures Marker(i) != Marker(j)
  {
    if Marker(i) == Marker(j) {
      var prefix := "\U{26A0}\U{FE0F}OWOWGENERATE PLACEHOLDER ";
      assert |prefix| == 27;
      assert Marker(i)[27..|Marker(i)| - 2] == NatToString(i);
      assert Marker(j)[27..|Marker(j)| - 2] == NatToString(j);
      NatToStringInjective(i, j);
    }
  }

  /** An object placeholder is passed as a `Text`; the others keep their raw type. */
  function ConcatParameterType(t: PlaceholderType): string {
    if t == Object then "Text" else t.RawValue()
  }

  function ConcatParameters(placeholders: seq<PlaceholderType>): string {
    JoinWith(seq(|placeholders|, i requires 0 <= i < |placeholders| => ParameterDeclaration(i, ConcatParameterType(placeholders[i]))), ", ")
  }

  /** What is formatted in for placeholder `i`: its marker's literal for an object, the parameter otherwise. */
  function ConcatArgument(placeholders: seq<PlaceholderType>, i: nat): string
    requires i < |placeholders|
  {
    if placeholders[i] == Object then MakeStringLiteral(Marker(i)) else PlaceholderName(i)
  }

  function ConcatUsage(placeholders: seq<PlaceholderType>): string {
    JoinWith(seq(|placeholders|, i requires 0 <= i < |placeholders| => ConcatArgument(placeholders, i)), ", ")
  }

  /** The indices of the object placeholders among the first `n`, ascending. */
  function ObjectIndicesBelow(placeholders: seq<PlaceholderType>, n: nat): (r: seq<nat>)
    requires n <= |placeholders|
    ensures forall i :: i in r <==> 0 <= i < n && placeholders[i] == Object
    ensures forall a :: 0 <= a < |r| ==> r[a] < n
    decreases n
  {
    if n == 0 then []
    else ObjectIndicesBelow(placeholders, n - 1) + (if placeholders[n - 1] == Object then [n - 1] else [])
  }

  /** The indices come out in ascending order. */
  lemma {:induction false} ObjectIndicesAscending(placeholders: seq<PlaceholderType>, n: nat)
    requires n <= |placeholders|
    ensures forall a, b :: 0 <= a < b < |ObjectIndicesBelow(placeholders, n)| ==>
      ObjectIndicesBelow(placeholders, n)[a] < ObjectIndicesBelow(placeholders, n)[b]
    decreases n
  {
    if n > 0 {
      ObjectIndicesAscending(placeholders, n - 1);
      var prev := ObjectIndicesBelow(placeholders, n - 1);
      var r := ObjectIndicesBelow(placeholders, n);
      if placeholders[n - 1] == Object {
        assert r == prev + [n - 1];
      } else {
        assert r == prev;
      }
      forall a, b | 0 <= a < b < |r|
        ensures r[a] < r[b]
      {
        if b >= |prev| {
          assert r[b] == n - 1 && r[a] == prev[a];
        } else {
          assert r[a] == prev[a] && r[b] == prev[b];
        }
      }
    }
  }

  function ObjectIndices(placeholders: seq<PlaceholderType>): seq<nat> {
    ObjectIndicesBelow(placeholders, |placeholders|)
  }

  /** `firstIndex(of: .object)`. */
  function FirstObject(placeholders: seq<PlaceholderType>): (f: nat)
    requires Object in placeholders
    ensures f < |placeholders| && placeholders[f] == Object
    ensures forall i :: 0 <= i < f ==> placeholders[i] != Object
  {
    if placeholders[0] == Object then 0
    else
      assert placeholders == [placeholders[0]] + placeholders[1..];
      1 + FirstObject(placeholders[1..])
  }

  /** `lastIndex(of: .object)`. */
  function LastObject(placeholders: seq<PlaceholderType>): (l: nat)
    requires Object in placeholders
    ensures l < |placeholders| && placeholders[l] == Object
    ensures forall i :: l < i < |placeholders| ==> placeholders[i] != Object
  {
    var n := |placeholders|;
    if placeholders[n - 1] == Object then n - 1
    else
      assert placeholders == placeholders[..n - 1] + [placeholders[n - 1]];
      LastObject(placeholders[..n - 1])
  }

  function RangeName(i: nat): string {
    PlaceholderName(i) + "Range"
  }

  /** The guard that finds placeholder `i`'s marker in the formatted string, or stops. */
  function GuardLines(i: nat, level: nat): seq<Line> {
    Block(level, "guard let " + RangeName(i) + " = temporaryString.range(of: " + MakeStringLiteral(Marker(i)) + ") else",
      [Line(level + 1, "fatalError(\"Placeholder " + NatToString(i) + " not found in string\")")])
  }

  /** The doc comment written above the first span, one string literal in the
      source. It is spelled in pieces because a single literal this long makes
      the proofs that read its first and last characters too costly for the
      verifier; the pieces joined are the source's text. */
  const FirstPartComment := FirstPartWords1 + FirstPartWords2 + FirstPartWords3 + FirstPartWords4
  const FirstPartWords1 := "Construct the first part of the text view, "
  const FirstPartWords2 := "consisting of the static first portion "
  const FirstPartWords3 := "until the first placeholder + "
  const FirstPartWords4 := "the value for the first placeholder"

  /** What `addDocComment` writes for `FirstPartComment`: a blank line and one `/// ` line. */
  function FirstPartDoc(level: nat): seq<Line> {
    [Line(level, ""), Line(level, "/// " + FirstPartComment)]
  }

  lemma FirstPartCommentDoc(level: nat)
    ensures DocComment(level, FirstPartComment) == FirstPartDoc(level)
  {
    assert FirstPartWords1[0] == 'C';
    assert FirstPartWords4[|FirstPartWords4| - 1] == 'r';
    FirstPartWordsFlat();
    DocCommentOneLine(level, FirstPartComment);
  }

  /** The doc comment above the first span is a single line. */
  lemma FirstPartWordsFlat()
    ensures '\n' !in FirstPartComment
  {
    FirstWordsFlat();
    LastWordsFlat();
  }

  lemma FirstWordsFlat()
    ensures '\n' !in FirstPartWords1 && '\n' !in FirstPartWords2
  {
  }

  lemma LastWordsFlat()
    ensures '\n' !in FirstPartWords3 && '\n' !in FirstPartWords4
  {
  }

  function FirstSpanLine(f: nat): string {
    "var text = Text(verbatim: String(temporaryString[temporaryString.startIndex..<" + RangeName(f) + ".lowerBound])) + " + PlaceholderName(f)
  }

  /** The span from the upper bound of placeholder `from`'s marker to placeholder `i`'s, then `i`'s text. */
  function SpanLine(from: nat, i: nat): string {
    "text = text + Text(verbatim: String(temporaryString[" + RangeName(from) + ".upperBound..<" + RangeName(i) + ".lowerBound])) + " + PlaceholderName(i)
  }

  function FinalSpanLine(l: nat): string {
    "text = text + Text(verbatim: String(temporaryString[" + RangeName(l) + ".upperBound..<temporaryString.endIndex]))"
  }

  /** The lines of the loop over the first `n` placeholders: for each object
      placeholder after the first one, its guard and its span, the span
      starting at the first object placeholder's marker (`from`). */
  function LaterSpans(placeholders: seq<PlaceholderType>, from: nat, level: nat, n: nat): seq<Line>
    requires n <= |placeholders|
    decreases n
  {
    if n == 0 then [] else
      LaterSpans(placeholders, from, level, n - 1) +
      (if n - 1 > from && placeholders[n - 1] == Object then GuardLines(n - 1, level) + [Line(level, SpanLine(from, n - 1))] else [])
  }

  /** The first two lines of the splicing variant: look the format up, and
      fill it in with a marker for each object placeholder. */
  function ConcatenationOpening(e: StringsEntry, level: nat): seq<Line> {
    [Line(level, "let format = " + LocalizedStringCall(e.key, MakeStringLiteral(e.comment))),
     Line(level, "let temporaryString = String(format: format, " + ConcatUsage(e.placeholders) + ")")]
  }

  /** The guard for the first object placeholder, the fixed doc comment and the first span. */
  function FirstSpan(f: nat, level: nat): seq<Line> {
    GuardLines(f, level) + FirstPartDoc(level) + [Line(level, FirstSpanLine(f))]
  }

  /** The final span after the last object placeholder, and the return. */
  function ConcatenationClosing(l: nat, level: nat): seq<Line> {
    [Line(level, FinalSpanLine(l)), Line(level, "return text")]
  }

  /** The body of the splicing variant. */
  function ConcatenationBody(e: StringsEntry, level: nat): seq<Line>
    requires Object in e.placeholders
  {
    var ps := e.placeholders;
    var f := FirstObject(ps);
    var l := LastObject(ps);
    ConcatenationOpening(e, level) + FirstSpan(f, level) +
    (if f != l then LaterSpans(ps, f, level, |ps|) else []) +
    ConcatenationClosing(l, level)
  }

  /** The splicing variant: its doc comment and its function, never `public`. */
  function ConcatenationLines(e: StringsEntry, level: nat, memberName: string): seq<Line>
    requires Object in e.placeholders
  {
    DocComment(level, e.comment) +
    Block(level, StaticTextFunc(memberName, ConcatParameters(e.placeholders)), ConcatenationBody(e, level + 1))
  }

  /** For each object placeholder after the first, in ascending order, its
      guard and its span, each span starting at the marker of `objects[from[j - 1]]`. */
  function SpanBlocks(objects: seq<nat>, from: seq<nat>, level: nat, j: nat): seq<Line>
    requires 1 <= j <= |objects| && |from| == |objects| - 1
    requires forall i :: 0 <= i < |from| ==> from[i] < |objects|
    decreases j
  {
    if j == 1 then [] else
      SpanBlocks(objects, from, level, j - 1) +
      GuardLines(objects[j - 1], level) + [Line(level, SpanLine(objects[from[j - 2]], objects[j - 1]))]
  }

  /** The span starts as written: every span after the first starts at the first object placeholder. */
  function AsWrittenPlan(k: nat): (from: seq<nat>)
    requires k >= 1
    ensures |from| == k - 1 && forall i :: 0 <= i < |from| ==> from[i] == 0
  {
    seq(k - 1, _ => 0)
  }

  /** The span starts evidently intended: every span starts at the object placeholder before it. */
  function IntendedPlan(k: nat): (from: seq<nat>)
    requires k >= 1
    ensures |from| == k - 1 && forall i :: 0 <= i < |from| ==> from[i] == i
  {
    seq(k - 1, i => i)
  }

  lemma {:induction false} LaterSpansBeforeFirst(placeholders: seq<PlaceholderType>, f: nat, level: nat, n: nat)
    requires n <= f < |placeholders|
    ensures LaterSpans(placeholders, f, level, n) == []
    decreases n
  {
    if n > 0 {
      LaterSpansBeforeFirst(placeholders, f, level, n - 1);
    }
  }

  /** No object placeholder comes before `f`, so none is found below it. */
  lemma {:induction false} NoObjectsBelow(placeholders: seq<PlaceholderType>, f: nat)
    requires f <= |placeholders| && forall i :: 0 <= i < f ==> placeholders[i] != Object
    ensures ObjectIndicesBelow(placeholders, f) == []
    decreases f
  {
    if f > 0 {
      NoObjectsBelow(placeholders, f - 1);
    }
  }

  /** The lines of the loop over the first `n` placeholders are the
      as-written span blocks of the object placeholders among them, the
      first of which is `f`. */
  predicate SpansAgree(placeholders: seq<PlaceholderType>, f: nat, level: nat, n: nat)
    requires n <= |placeholders|
  {
    && |ObjectIndicesBelow(placeholders, n)| >= 1 && ObjectIndicesBelow(placeholders, n)[0] == f
    && LaterSpans(placeholders, f, level, n) ==
       SpanBlocks(ObjectIndicesBelow(placeholders, n), AsWrittenPlan(|ObjectIndicesBelow(placeholders, n)|), level, |ObjectIndicesBelow(placeholders, n)|)
  }

  /** The loop over placeholders `from + 1 ..< n` writes, for the object
      placeholders among them, the as-written span blocks. */
  lemma {:induction false} LaterSpansAreSpanBlocks(placeholders: seq<PlaceholderType>, f: nat, level: nat, n: nat)
    requires f < n <= |placeholders| && placeholders[f] == Object
    requires forall i :: 0 <= i < f ==> placeholders[i] != Object
    ensures SpansAgree(placeholders, f, level, n)
    decreases n
  {
    if n - 1 == f {
      FirstSpanBlocks(placeholders, f, level, n);
    } else {
      LaterSpansAreSpanBlocks(placeholders, f, level, n - 1);
      LaterSpanBlocksStep(placeholders, f, level, n);
    }
  }

  /** Up to the first object placeholder there is no later span and one object. */
  lemma FirstSpanBlocks(placeholders: seq<PlaceholderType>, f: nat, level: nat, n: nat)
    requires n == f + 1 && n <= |placeholders| && placeholders[f] == Object
    requires forall i :: 0 <= i < f ==> placeholders[i] != Object
    ensures ObjectIndicesBelow(placeholders, n) == [f] && SpansAgree(placeholders, f, level, n)
  {
    LaterSpansBeforeFirst(placeholders, f, level, f);
    LaterSpansSnoc(placeholders, f, level, f);
    NoObjectsBelow(placeholders, f);
    ObjectIndicesSnoc(placeholders, f);
  }

  /** One more placeholder adds its index when it is an object placeholder. */
  lemma ObjectIndicesSnoc(placeholders: seq<PlaceholderType>, m: nat)
    requires m < |placeholders|
    ensures ObjectIndicesBelow(placeholders, m + 1) == ObjectIndicesBelow(placeholders, m) + (if placeholders[m] == Object then [m] else [])
  {
  }

  /** One placeholder more past the first object placeholder. */
  lemma LaterSpanBlocksStep(placeholders: seq<PlaceholderType>, f: nat, level: nat, n: nat)
    requires f < n - 1 && n <= |placeholders|
    requires SpansAgree(placeholders, f, level, n - 1)
    ensures SpansAgree(placeholders, f, level, n)
  {
    var before := ObjectIndicesBelow(placeholders, n - 1);
    var objects := ObjectIndicesBelow(placeholders, n);
    if placeholders[n - 1] == Object {
      assert objects == before + [n - 1];
      LaterSpanAppended(placeholders, f, level, n, before, objects);
    } else {
      assert objects == before;
      LaterSpansSkip(placeholders, f, level, n - 1);
    }
  }

  /** A placeholder that is not an object placeholder adds no lines. */
  lemma LaterSpansSkip(placeholders: seq<PlaceholderType>, from: nat, level: nat, index: nat)
    requires index < |placeholders| && placeholders[index] != Object
    ensures LaterSpans(placeholders, from, level, index + 1) == LaterSpans(placeholders, from, level, index)
  {
    assert LaterSpans(placeholders, from, level, index + 1) == LaterSpans(placeholders, from, level, index) + [];
  }

  /** One more object placeholder adds one span block, starting at the first one's marker. */
  lemma LaterSpanAppended(placeholders: seq<PlaceholderType>, f: nat, level: nat, n: nat, before: seq<nat>, objects: seq<nat>)
    requires f < n - 1 && n <= |placeholders| && placeholders[n - 1] == Object
    requires |before| >= 1 && before[0] == f && objects == before + [n - 1]
    requires LaterSpans(placeholders, f, level, n - 1) == SpanBlocks(before, AsWrittenPlan(|before|), level, |before|)
    ensures LaterSpans(placeholders, f, level, n) == SpanBlocks(objects, AsWrittenPlan(|objects|), level, |objects|)
  {
    var k := |objects|;
    var plan := AsWrittenPlan(k);
    var plan' := AsWrittenPlan(|before|);
    assert plan' == plan[..|plan'|];
    assert before == objects[..|before|];
    SpanBlocksPrefix(before, plan', objects, plan, level, |before|);
    LaterSpansSnoc(placeholders, f, level, n - 1);
    SpanBlocksSnoc(objects, plan, level, k);
    assert objects[k - 1] == n - 1 && objects[plan[k - 2]] == f;
  }

  lemma SpanBlocksSnoc(objects: seq<nat>, from: seq<nat>, level: nat, j: nat)
    requires 2 <= j <= |objects| && |from| == |objects| - 1
    requires forall i :: 0 <= i < |from| ==> from[i] < |objects|
    ensures SpanBlocks(objects, from, level, j) ==
      SpanBlocks(objects, from, level, j - 1) + GuardLines(objects[j - 1], level) + [Line(level, SpanLine(objects[from[j - 2]], objects[j - 1]))]
  {
  }

  /** Span blocks depend only on the objects and plan entries they reach. */
  lemma {:induction false} SpanBlocksPrefix(objects: seq<nat>, from: seq<nat>, objects': seq<nat>, from': seq<nat>, level: nat, j: nat)
    requires 1 <= j <= |objects| <= |objects'| && |from| == |objects| - 1 && |from'| == |objects'| - 1
    requires forall i :: 0 <= i < |from| ==> from[i] < |objects|
    requires forall i :: 0 <= i < |from'| ==> from'[i] < |objects'|
    requires objects == objects'[..|objects|] && from == from'[..|from|]
    ensures SpanBlocks(objects, from, level, j) == SpanBlocks(objects', from', level, j)
    decreases j
  {
    if j > 1 {
      SpanBlocksPrefix(objects, from, objects', from', level, j - 1);
    }
  }

  /** The last object index found is the last object placeholder. */
  lemma LastOfObjects(placeholders: seq<PlaceholderType>, l: nat)
    requires l < |placeholders| && placeholders[l] == Object
    requires forall i :: l < i < |placeholders| ==> placeholders[i] != Object
    ensures var objects := ObjectIndices(placeholders); |objects| >= 1 && objects[|objects| - 1] == l
    ensures var objects := ObjectIndices(placeholders); |objects| == 1 || objects[0] < l
  {
    var objects := ObjectIndices(placeholders);
    ObjectIndicesAscending(placeholders, |placeholders|);
    assert l in objects;
    var last := objects[|objects| - 1];
    assert last in objects;
    var j :| 0 <= j < |objects| && objects[j] == l;
    assert objects[j] <= last;
    if |objects| > 1 {
      assert objects[0] < objects[|objects| - 1];
    }
  }

  /** The splicing variant finds one marker per object placeholder, in
      ascending order: the first before the first span, each later one with
      its span; every later span starts at the FIRST object placeholder's
      marker, and the final span starts at the last one's. */
  lemma {:induction false} ConcatenationSpans(e: StringsEntry, level: nat)
    requires Object in e.placeholders
    ensures var objects := ObjectIndices(e.placeholders);
      && |objects| >= 1
      && FirstObject(e.placeholders) == objects[0] && LastObject(e.placeholders) == objects[|objects| - 1]
      && ConcatenationBody(e, level) ==
        ConcatenationOpening(e, level) + FirstSpan(objects[0], level) +
        SpanBlocks(objects, AsWrittenPlan(|objects|), level, |objects|) +
        ConcatenationClosing(objects[|objects| - 1], level)
  {
    var ps := e.placeholders;
    var objects := ObjectIndices(ps);
    var f := FirstObject(ps);
    var l := LastObject(ps);
    LaterSpansAreSpanBlocks(ps, f, level, |ps|);
    LastOfObjects(ps, l);
    if f == l {
      assert |objects| == 1;
    }
  }

  // What the spliced text evaluates to, given where the markers were found
  // in the formatted string: `lo[j]` and `hi[j]` bound the marker of the
  // `j`-th object placeholder, `frags[j]` is the `Text` passed for it, and
  // the span before the `j`-th fragment (j >= 1) starts at `hi[from[j - 1]]`.

  predicate PlanFits(t: string, lo: seq<nat>, hi: seq<nat>, from: seq<nat>) {
    && |lo| == |hi| >= 1 && |from| == |lo| - 1
    && lo[0] <= |t| && hi[|hi| - 1] <= |t|
    && forall i :: 0 <= i < |from| ==> from[i] < |hi| && hi[from[i]] <= lo[i + 1] <= |t|
  }

  /** The text after the first `j` fragments. */
  function SplicedUpTo(t: string, lo: seq<nat>, hi: seq<nat>, frags: seq<string>, from: seq<nat>, j: nat): string
    requires PlanFits(t, lo, hi, from) && |frags| == |lo| && 1 <= j <= |lo|
    decreases j
  {
    if j == 1 then t[..lo[0]] + frags[0]
    else SplicedUpTo(t, lo, hi, frags, from, j - 1) + t[hi[from[j - 2]]..lo[j - 1]] + frags[j - 1]
  }

  /** The finished text: every fragment, then the rest after the last marker. */
  function Spliced(t: string, lo: seq<nat>, hi: seq<nat>, frags: seq<string>, from: seq<nat>): string
    requires PlanFits(t, lo, hi, from) && |frags| == |lo|
  {
    SplicedUpTo(t, lo, hi, frags, from, |lo|) + t[hi[|hi| - 1]..]
  }

  /** `a[0] + b[0] + … + a[j - 1] + b[j - 1]`. */
  function Woven(a: seq<string>, b: seq<string>, j: nat): string
    requires j <= |a| && j <= |b|
    decreases j
  {
    if j == 0 then "" else Woven(a, b, j - 1) + a[j - 1] + b[j - 1]
  }

  /** The formatted string: the literal pieces with the markers between them. */
  function Formatted(literals: seq<string>, markers: seq<string>): string
    requires |literals| == |markers| + 1
  {
    Woven(literals, markers, |markers|) + literals[|markers|]
  }

  /** Where the `j`-th marker starts and ends in the formatted string. */
  function MarkerStarts(literals: seq<string>, markers: seq<string>): (lo: seq<nat>)
    requires |literals| == |markers| + 1
    ensures |lo| == |markers|
  {
    seq(|markers|, j requires 0 <= j < |markers| => |Woven(literals, markers, j)| + |literals[j]|)
  }

  function MarkerEnds(literals: seq<string>, markers: seq<string>): (hi: seq<nat>)
    requires |literals| == |markers| + 1
    ensures |hi| == |markers|
  {
    seq(|markers|, j requires 0 <= j < |markers| => |Woven(literals, markers, j + 1)|)
  }

  /** What the formatted string holds from the start of the `j`-th literal piece. */
  lemma {:induction false} FormattedSplits(literals: seq<string>, markers: seq<string>, j: nat)
    requires |literals| == |markers| + 1 && j < |literals|
    ensures |Woven(literals, markers, j)| + |literals[j]| <= |Formatted(literals, markers)|
    ensures Formatted(literals, markers)[|Woven(literals, markers, j)|..|Woven(literals, markers, j)| + |literals[j]|] == literals[j]
    ensures j == |markers| ==> Formatted(literals, markers)[|Woven(literals, markers, j)|..] == literals[j]
  {
    var k := |markers|;
    var rest := WovenFrom(literals, markers, j);
    WovenSplits(literals, markers, j);
    assert Formatted(literals, markers) == Woven(literals, markers, j) + rest;
    var p := |Woven(literals, markers, j)|;
    assert Formatted(literals, markers)[p..] == rest;
    assert rest[..|literals[j]|] == literals[j];
  }

  /** From the `j`-th literal piece to the end of the formatted string. */
  function WovenFrom(literals: seq<string>, markers: seq<string>, j: nat): string
    requires |literals| == |markers| + 1 && j <= |markers|
    decreases |markers| - j
  {
    if j == |markers| then literals[j] else literals[j] + markers[j] + WovenFrom(literals, markers, j + 1)
  }

  lemma {:induction false} WovenSplits(literals: seq<string>, markers: seq<string>, j: nat)
    requires |literals| == |markers| + 1 && j <= |markers|
    ensures Formatted(literals, markers) == Woven(literals, markers, j) + WovenFrom(literals, markers, j)
    ensures HasPrefix(WovenFrom(literals, markers, j), literals[j])
    decreases |markers| - j
  {
    if j < |markers| {
      WovenSplits(literals, markers, j + 1);
      assert Woven(literals, markers, j + 1) == Woven(literals, markers, j) + literals[j] + markers[j];
      var rest := WovenFrom(literals, markers, j + 1);
      assert (literals[j] + markers[j] + rest)[..|literals[j]|] == literals[j];
    }
  }

  /** With the markers found where formatting put them, every marker range
      lies after the one before it. */
  lemma {:induction false} MarkerRangesOrdered(literals: seq<string>, markers: seq<string>, i: nat, j: nat)
    requires |literals| == |markers| + 1 && i < j < |markers|
    ensures MarkerEnds(literals, markers)[i] <= MarkerStarts(literals, markers)[j]
    decreases j - i
  {
    if i + 1 < j {
      MarkerRangesOrdered(literals, markers, i, j - 1);
    }
  }

  /** The evidently intended splice, each span starting at the marker just
      before it, gives the literal pieces with the fragments in place of the
      markers, in their left-to-right order. */
  lemma {:induction false} IntendedSpliceCorrect(literals: seq<string>, markers: seq<string>, frags: seq<string>)
    requires |literals| == |markers| + 1 && |frags| == |markers| >= 1
    ensures var t := Formatted(literals, markers);
      var lo := MarkerStarts(literals, markers);
      var hi := MarkerEnds(literals, markers);
      && PlanFits(t, lo, hi, IntendedPlan(|markers|))
      && Spliced(t, lo, hi, frags, IntendedPlan(|markers|)) == Formatted(literals, frags)
  {
    var t := Formatted(literals, markers);
    var lo := MarkerStarts(literals, markers);
    var hi := MarkerEnds(literals, markers);
    var k := |markers|;
    var plan := IntendedPlan(k);
    FormattedSplits(literals, markers, k);
    FormattedSplits(literals, markers, 0);
    forall i | 0 <= i < |plan| ensures hi[plan[i]] <= lo[i + 1] <= |t| {
      FormattedSplits(literals, markers, i + 1);
      assert Woven(literals, markers, i + 1) == Woven(literals, markers, i) + literals[i] + markers[i];
    }
    assert hi[k - 1] == |Woven(literals, markers, k)|;
    SplicedIntendedUpTo(literals, markers, frags, k);
  }

  lemma {:induction false} SplicedIntendedUpTo(literals: seq<string>, markers: seq<string>, frags: seq<string>, j: nat)
    requires |literals| == |markers| + 1 && |frags| == |markers| >= 1 && 1 <= j <= |markers|
    requires PlanFits(Formatted(literals, markers), MarkerStarts(literals, markers), MarkerEnds(literals, markers), IntendedPlan(|markers|))
    ensures SplicedUpTo(Formatted(literals, markers), MarkerStarts(literals, markers), MarkerEnds(literals, markers), frags, IntendedPlan(|markers|), j)
         == Woven(literals, frags, j)
    ensures j == |markers| ==>
      Spliced(Formatted(literals, markers), MarkerStarts(literals, markers), MarkerEnds(literals, markers), frags, IntendedPlan(|markers|))
      == Formatted(literals, frags)
    decreases j
  {
    var t := Formatted(literals, markers);
    var lo := MarkerStarts(literals, markers);
    var hi := MarkerEnds(literals, markers);
    var plan := IntendedPlan(|markers|);
    if j == 1 {
      FormattedSplits(literals, markers, 0);
      assert t[..lo[0]] == literals[0];
      assert Woven(literals, frags, 1) == Woven(literals, frags, 0) + literals[0] + frags[0];
    } else {
      SplicedIntendedUpTo(literals, markers, frags, j - 1);
      FormattedSplits(literals, markers, j - 1);
      assert hi[plan[j - 2]] == |Woven(literals, markers, j - 1)|;
      assert t[hi[plan[j - 2]]..lo[j - 1]] == literals[j - 1];
    }
    if j == |markers| {
      FormattedSplits(literals, markers, j);
      assert hi[j - 1] == |Woven(literals, markers, j)|;
      assert t[hi[|hi| - 1]..] == literals[j];
    }
  }

  /** For at most two object placeholders the span starts as written are the intended ones. */
  lemma AsWrittenIntendedUpToTwo(k: nat)
    requires 1 <= k <= 2
    ensures AsWrittenPlan(k) == IntendedPlan(k)
  {
  }

  /** With three object placeholders the generated splice repeats text: for
      the formatted string `aXbYcZd` with markers `X`, `Y`, `Z` and
      fragments `F`, `G`, `H`, the code as written makes `aFbGbYcHd`, where
      `aFbGcHd` was meant. */
  lemma AsWrittenSpliceRepeatsText()
    ensures var literals := ["a", "b", "c", "d"];
      var markers := ["X", "Y", "Z"];
      var frags := ["F", "G", "H"];
      var t := Formatted(literals, markers);
      var lo := MarkerStarts(literals, markers);
      var hi := MarkerEnds(literals, markers);
      && t == "aXbYcZd"
      && PlanFits(t, lo, hi, AsWrittenPlan(3))
      && Spliced(t, lo, hi, frags, AsWrittenPlan(3)) == "aFbGbYcHd"
      && Formatted(literals, frags) == "aFbGcHd"
      && Spliced(t, lo, hi, frags, AsWrittenPlan(3)) != Formatted(literals, frags)
  {
    ExampleMarkers();
    AsWrittenExampleSplice();
    ExampleIntended();
  }

  /** Where the three markers of the example lie. */
  lemma ExampleMarkers()
    ensures Formatted(["a", "b", "c", "d"], ["X", "Y", "Z"]) == "aXbYcZd"
    ensures MarkerStarts(["a", "b", "c", "d"], ["X", "Y", "Z"]) == [1, 3, 5]
    ensures MarkerEnds(["a", "b", "c", "d"], ["X", "Y", "Z"]) == [2, 4, 6]
  {
    var literals := ["a", "b", "c", "d"];
    var markers := ["X", "Y", "Z"];
    assert Woven(literals, markers, 1) == "aX";
    assert Woven(literals, markers, 2) == "aXbY";
    assert Woven(literals, markers, 3) == "aXbYcZ";
  }

  /** The splice the generated code performs on the example. */
  lemma AsWrittenExampleSplice()
    ensures AsWrittenPlan(3) == [0, 0]
    ensures PlanFits("aXbYcZd", [1, 3, 5], [2, 4, 6], [0, 0])
    ensures Spliced("aXbYcZd", [1, 3, 5], [2, 4, 6], ["F", "G", "H"], [0, 0]) == "aFbGbYcHd"
  {
    var t := "aXbYcZd";
    assert t[..1] == "a" && t[2..3] == "b" && t[2..5] == "bYc" && t[6..] == "d";
    assert SplicedUpTo(t, [1, 3, 5], [2, 4, 6], ["F", "G", "H"], [0, 0], 2) == "aF" + "b" + "G";
    assert SplicedUpTo(t, [1, 3, 5], [2, 4, 6], ["F", "G", "H"], [0, 0], 3) == "aFbG" + "bYc" + "H";
  }

  /** The example formatted directly with the caller's texts. */
  lemma ExampleIntended()
    ensures Formatted(["a", "b", "c", "d"], ["F", "G", "H"]) == "aFbGcHd"
  {
    assert Woven(["a", "b", "c", "d"], ["F", "G", "H"], 3) == "aFbGcH";
  }

  // The generator

  /** The generator, with the two file-wide flags of the source: the library
      flag that one library request sets for good, and the flag that makes
      nested namespaces public. */
  class SwiftUICodeGenerator {
    var shouldBePublic: bool
    var isConstructingForLibrary: bool

    constructor()
      ensures !shouldBePublic && !isConstructingForLibrary
    {
      shouldBePublic := false;
      isConstructingForLibrary := false;
    }

    /** `makeSwiftUICode(strings:isForLibrary:)`: top-level namespaces are
        public only when `shouldBePublic` was already set for a library. */
    method MakeSwiftUICode(strings: StringsCollection, isForLibrary: bool, naming: Naming) returns (code: string)
      modifies this
      ensures isConstructingForLibrary == (old(isConstructingForLibrary) || isForLibrary)
      ensures var entry := if isForLibrary then false else old(shouldBePublic);
        && code == SwiftUICode(strings, isConstructingForLibrary, entry && isConstructingForLibrary, naming)
        && shouldBePublic == (entry && (isConstructingForLibrary || |strings.subCollections| == 0))
    {
      if isForLibrary {
        isConstructingForLibrary := isForLibrary;
        shouldBePublic := false;
      }
      ghost var lib := isConstructingForLibrary;
      ghost var pub := shouldBePublic && lib;
      var writer := new SwiftCodeWriter();
      writer.AddLine("import SwiftUI");
      writer.AddLine("");
      ghost var o2 := writer.output;
      RenderConcat("", [Line(0, "import SwiftUI")], [Line(0, "")]);
      assert [Line(0, "import SwiftUI")] + [Line(0, "")] == [Line(0, "import SwiftUI"), Line(0, "")];
      var extensionText := Declaration(isConstructingForLibrary, "extension SwiftUI.Text");
      writer.OpenBlock(extensionText);
      ghost var o3 := writer.output;
      WriteStrings(strings, writer, naming);
      ghost var o4 := writer.output;
      writer.CloseBlock();
      BlockSteps(o2, 0, extensionText, StringsLines(strings, 1, lib, pub, naming), o3, o4, writer.output);
      RenderConcat("", [Line(0, "import SwiftUI"), Line(0, "")], Block(0, extensionText, StringsLines(strings, 1, lib, pub, naming)));
      code := writer.output;
    }

    /** `writeStrings`: appends the code for `strings` at the writer's level.
        A namespace lowers `shouldBePublic` after itself unless it was public. */
    method WriteStrings(strings: StringsCollection, writer: SwiftCodeWriter, naming: Naming)
      requires writer.indentationLevel >= 0
      modifies this, writer
      ensures isConstructingForLibrary == old(isConstructingForLibrary)
      ensures shouldBePublic == (old(shouldBePublic) && (isConstructingForLibrary || |strings.subCollections| == 0))
      ensures writer.indentationLevel == old(writer.indentationLevel)
      ensures writer.output == Render(old(writer.output), StringsLines(strings, old(writer.indentationLevel), isConstructingForLibrary, old(shouldBePublic) && isConstructingForLibrary, naming))
      decreases strings, 3
    {
      ghost var level: nat := writer.indentationLevel;
      ghost var start := writer.output;
      ghost var lib := isConstructingForLibrary;
      ghost var pub := shouldBePublic && lib;
      MembersOrder(strings);
      WriteNamespaces(strings, writer, naming, start, pub);
      WriteEntries(strings, writer, naming, start, pub);
    }

    /** The first loop of `writeStrings`: the sub-collections in ascending name order. */
    method WriteNamespaces(strings: StringsCollection, writer: SwiftCodeWriter, naming: Naming, ghost start: string, ghost pub: bool)
      requires writer.indentationLevel >= 0
      requires pub == (shouldBePublic && isConstructingForLibrary)
      requires writer.output == start
      modifies this, writer
      ensures isConstructingForLibrary == old(isConstructingForLibrary)
      ensures shouldBePublic == (old(shouldBePublic) && (isConstructingForLibrary || |strings.subCollections| == 0))
      ensures writer.indentationLevel == old(writer.indentationLevel)
      ensures writer.output == Render(start, MembersLines(strings, |strings.subCollections|, old(writer.indentationLevel), isConstructingForLibrary, pub, naming))
      decreases strings, 2
    {
      ghost var level: nat := writer.indentationLevel;
      ghost var lib := isConstructingForLibrary;
      var names := SortedKeys(strings.subCollections.Keys);
      MembersOrder(strings);
      for i := 0 to |names|
        invariant isConstructingForLibrary == lib
        invariant shouldBePublic == (old(shouldBePublic) && (lib || i == 0))
        invariant writer.indentationLevel == level
        invariant writer.output == Render(start, MembersLines(strings, i, level, lib, pub, naming))
      {
        WriteMember(strings, i, writer, naming, start, pub);
      }
    }

    /** The second loop of `writeStrings`: the entries in stored order. */
    method WriteEntries(strings: StringsCollection, writer: SwiftCodeWriter, naming: Naming, ghost start: string, ghost pub: bool)
      requires writer.indentationLevel >= 0
      requires pub == (shouldBePublic && isConstructingForLibrary)
      requires writer.output == Render(start, MembersLines(strings, |strings.subCollections|, writer.indentationLevel, isConstructingForLibrary, pub, naming))
      modifies this, writer
      ensures isConstructingForLibrary == old(isConstructingForLibrary)
      ensures shouldBePublic == old(shouldBePublic)
      ensures writer.indentationLevel == old(writer.indentationLevel)
      ensures writer.output == Render(start, MembersLines(strings, MemberCount(strings), old(writer.indentationLevel), isConstructingForLibrary, pub, naming))
      decreases strings, 2
    {
      ghost var level: nat := writer.indentationLevel;
      ghost var lib := isConstructingForLibrary;
      MemberCountSplit(strings);
      var count := |strings.subCollections|;
      for k := count to count + |strings.keys|
        invariant isConstructingForLibrary == lib
        invariant shouldBePublic == old(shouldBePublic)
        invariant writer.indentationLevel == level
        invariant writer.output == Render(start, MembersLines(strings, k, level, lib, pub, naming))
      {
        EntryAt(strings, k);
        WriteMember(strings, k, writer, naming, start, pub);
      }
    }

    /** The body of either loop of `writeStrings`, for the `k`-th item. */
    method WriteMember(strings: StringsCollection, k: nat, writer: SwiftCodeWriter, naming: Naming, ghost start: string, ghost pub: bool)
      requires k < MemberCount(strings)
      requires writer.indentationLevel >= 0
      requires pub == (shouldBePublic && isConstructingForLibrary)
      requires writer.output == Render(start, MembersLines(strings, k, writer.indentationLevel, isConstructingForLibrary, pub, naming))
      modifies this, writer
      ensures isConstructingForLibrary == old(isConstructingForLibrary)
      ensures shouldBePublic == (if MemberAt(strings, k).NamespaceMember? then pub else old(shouldBePublic))
      ensures writer.indentationLevel == old(writer.indentationLevel)
      ensures writer.output == Render(start, MembersLines(strings, k + 1, old(writer.indentationLevel), isConstructingForLibrary, pub, naming))
      decreases strings, 1
    {
      ghost var level: nat := writer.indentationLevel;
      ghost var before := writer.output;
      ghost var lib := isConstructingForLibrary;
      match MemberAt(strings, k) {
        case NamespaceMember(name) =>
          WriteNamespace(name, strings.subCollections[name], writer, naming);
          assert writer.output == Render(before, MemberLines(strings, k, level, lib, pub, naming));
        case EntryMember(entry) =>
          WriteEntry(entry, writer, naming);
          assert writer.output == Render(before, MemberLines(strings, k, level, lib, pub, naming));
      }
      RenderConcat(start, MembersLines(strings, k, level, lib, pub, naming), MemberLines(strings, k, level, lib, pub, naming));
    }

    /** One pass of the first loop: a blank line, then the type variable and
        the struct, public when `shouldBePublic` is set for a library;
        otherwise `shouldBePublic` is raised for the nested namespaces and
        lowered again afterwards. */
    method WriteNamespace(name: string, collection: StringsCollection, writer: SwiftCodeWriter, naming: Naming)
      requires writer.indentationLevel >= 0
      modifies this, writer
      ensures isConstructingForLibrary == old(isConstructingForLibrary)
      ensures shouldBePublic == (old(shouldBePublic) && isConstructingForLibrary)
      ensures writer.indentationLevel == old(writer.indentationLevel)
      ensures writer.output == Render(old(writer.output), NamespaceLines(name, collection, old(writer.indentationLevel), isConstructingForLibrary, old(shouldBePublic) && isConstructingForLibrary, naming))
      decreases collection, 6
    {
      ghost var level: nat := writer.indentationLevel;
      ghost var start := writer.output;
      ghost var pub := shouldBePublic && isConstructingForLibrary;
      writer.AddLine("");
      ghost var o1 := writer.output;
      var variableName := Identifier(naming, name, false);
      var typeName := NamespaceTypeName(naming, name);
      if shouldBePublic && isConstructingForLibrary {
        WriteTypeAndStruct(collection, writer, naming, true, variableName, typeName);
      } else {
        shouldBePublic := true;
        WriteTypeAndStruct(collection, writer, naming, false, variableName, typeName);
        shouldBePublic := false;
      }
      NamespaceSteps(name, collection, level, isConstructingForLibrary, pub, naming, start, o1, writer.output);
    }

    /** The namespace's static type variable, then its struct, `public` when `pub`. */
    method WriteTypeAndStruct(collection: StringsCollection, writer: SwiftCodeWriter, naming: Naming, pub: bool, variableName: string, typeName: string)
      requires writer.indentationLevel >= 0 && shouldBePublic
      modifies this, writer
      ensures isConstructingForLibrary == old(isConstructingForLibrary)
      ensures shouldBePublic == (isConstructingForLibrary || |collection.subCollections| == 0)
      ensures writer.indentationLevel == old(writer.indentationLevel)
      ensures writer.output == Render(old(writer.output), [Line(old(writer.indentationLevel), Declaration(pub, NamespaceVar(variableName, typeName)))] +
        Block(old(writer.indentationLevel), Declaration(pub, StructHeader(typeName)), StringsLines(collection, old(writer.indentationLevel) + 1, isConstructingForLibrary, isConstructingForLibrary, naming)))
      decreases collection, 5
    {
      ghost var level: nat := writer.indentationLevel;
      ghost var start := writer.output;
      writer.AddLine(Declaration(pub, NamespaceVar(variableName, typeName)));
      ghost var o1 := writer.output;
      WriteStructBlock(collection, writer, naming, Declaration(pub, StructHeader(typeName)));
      RenderStep(start, [Line(level, Declaration(pub, NamespaceVar(variableName, typeName)))],
        Block(level, Declaration(pub, StructHeader(typeName)), StringsLines(collection, level + 1, isConstructingForLibrary, isConstructingForLibrary, naming)), o1, writer.output);
    }

    /** `inBlock(header) { writeStrings(...) }` for a namespace, entered with `shouldBePublic` raised. */
    method WriteStructBlock(collection: StringsCollection, writer: SwiftCodeWriter, naming: Naming, header: string)
      requires writer.indentationLevel >= 0 && shouldBePublic
      modifies this, writer
      ensures isConstructingForLibrary == old(isConstructingForLibrary)
      ensures shouldBePublic == (isConstructingForLibrary || |collection.subCollections| == 0)
      ensures writer.indentationLevel == old(writer.indentationLevel)
      ensures writer.output == Render(old(writer.output), Block(old(writer.indentationLevel), header, StringsLines(collection, old(writer.indentationLevel) + 1, isConstructingForLibrary, isConstructingForLibrary, naming)))
      decreases collection, 4
    {
      ghost var level: nat := writer.indentationLevel;
      ghost var start := writer.output;
      writer.OpenBlock(header);
      ghost var o1 := writer.output;
      WriteStrings(collection, writer, naming);
      ghost var o2 := writer.output;
      writer.CloseBlock();
      BlockSteps(start, level, header, StringsLines(collection, level + 1, isConstructingForLibrary, isConstructingForLibrary, naming), o1, o2, writer.output);
    }

    /** One pass of the second loop: the entry's members, `public` for a library. */
    method WriteEntry(key: StringsEntry, writer: SwiftCodeWriter, naming: Naming)
      requires writer.indentationLevel >= 0
      modifies writer
      ensures writer.indentationLevel == old(writer.indentationLevel)
      ensures writer.output == Render(old(writer.output), EntryLines(key, old(writer.indentationLevel), isConstructingForLibrary, naming))
    {
      ghost var level: nat := writer.indentationLevel;
      ghost var start := writer.output;
      var memberName := MemberName(naming, key.key);
      if |key.placeholders| == 0 {
        writer.AddDocComment(key.comment);
        ghost var o1 := writer.output;
        var line := Declaration(isConstructingForLibrary, StaticTextVar(memberName, key.key, key.comment));
        writer.AddLine(line);
        EntryVarSteps(key, level, isConstructingForLibrary, naming, start, o1, writer.output);
      } else {
        WriteEntryFunction(key, writer, isConstructingForLibrary, naming, memberName);
        ghost var o1 := writer.output;
        if Object in key.placeholders {
          WriteTextConcatenationFunction(writer, key, memberName);
        }
        EntryVariantSteps(key, level, isConstructingForLibrary, naming, start, o1, writer.output);
      }
    }
  }

  /** The doc comment and the function block of an entry with placeholders. */
  method WriteEntryFunction(key: StringsEntry, writer: SwiftCodeWriter, lib: bool, naming: Naming, memberName: string)
    requires writer.indentationLevel >= 0 && memberName == MemberName(naming, key.key)
    modifies writer
    ensures writer.indentationLevel == old(writer.indentationLevel)
    ensures writer.output == Render(old(writer.output), EntryFunctionLines(key, old(writer.indentationLevel), lib, naming))
  {
    ghost var level: nat := writer.indentationLevel;
    ghost var start := writer.output;
    writer.AddDocComment(key.comment);
    ghost var o1 := writer.output;
    var functionBlock := Declaration(lib, StaticTextFunc(memberName, Parameters(key.placeholders)));
    writer.OpenBlock(functionBlock);
    ghost var o2 := writer.output;
    writer.AddLine("let format = " + LocalizedStringCall(key.key, MakeStringLiteral(key.comment)));
    ghost var o3 := writer.output;
    writer.AddLine("let string = String(format: format, " + ParameterUsage(|key.placeholders|) + ")");
    ghost var o4 := writer.output;
    writer.AddLine("return Text(verbatim: string)");
    ghost var o5 := writer.output;
    writer.CloseBlock();
    EntryFunctionSteps(key, level, lib, naming, start, o1, o2, o3, o4, o5, writer.output);
  }

  /** The writes of a sub-collection: a blank line, its type variable, its struct. */
  lemma NamespaceSteps(name: string, child: StringsCollection, level: nat, lib: bool, pub: bool, naming: Naming,
                       start: string, o1: string, out: string)
    requires o1 == Render(start, [Line(level, "")])
    requires out == Render(o1, [Line(level, Declaration(pub, NamespaceVar(Identifier(naming, name, false), NamespaceTypeName(naming, name))))] +
      Block(level, Declaration(pub, StructHeader(NamespaceTypeName(naming, name))), StringsLines(child, level + 1, lib, lib, naming)))
    ensures out == Render(start, NamespaceLines(name, child, level, lib, pub, naming))
  {
    var declaration := [Line(level, Declaration(pub, NamespaceVar(Identifier(naming, name, false), NamespaceTypeName(naming, name))))];
    var block := Block(level, Declaration(pub, StructHeader(NamespaceTypeName(naming, name))), StringsLines(child, level + 1, lib, lib, naming));
    RenderConcat(start, [Line(level, "")], declaration + block);
    assert [Line(level, "")] + (declaration + block) == [Line(level, "")] + declaration + block;
  }

  /** The writes of an entry without placeholders: its doc comment, then its variable. */
  lemma EntryVarSteps(e: StringsEntry, level: nat, lib: bool, naming: Naming, start: string, o1: string, out: string)
    requires |e.placeholders| == 0
    requires o1 == Render(start, DocComment(level, e.comment))
    requires out == Render(o1, [Line(level, Declaration(lib, StaticTextVar(MemberName(naming, e.key), e.key, e.comment)))])
    ensures out == Render(start, EntryLines(e, level, lib, naming))
  {
    RenderConcat(start, DocComment(level, e.comment), [Line(level, Declaration(lib, StaticTextVar(MemberName(naming, e.key), e.key, e.comment)))]);
  }

  /** The lines an entry with placeholders gets before its splicing variant. */
  function EntryFunctionLines(e: StringsEntry, level: nat, lib: bool, naming: Naming): seq<Line> {
    DocComment(level, e.comment) +
    Block(level, Declaration(lib, StaticTextFunc(MemberName(naming, e.key), Parameters(e.placeholders))), FormatTextBody(level + 1, e))
  }

  /** The writes of an entry with placeholders: its doc comment, then its function block. */
  lemma EntryFunctionSteps(e: StringsEntry, level: nat, lib: bool, naming: Naming,
                           start: string, o1: string, o2: string, o3: string, o4: string, o5: string, out: string)
    requires o1 == Render(start, DocComment(level, e.comment))
    requires o2 == Render(o1, [Line(level, Declaration(lib, StaticTextFunc(MemberName(naming, e.key), Parameters(e.placeholders))) + " {")])
    requires o3 == Render(o2, [Line(level + 1, "let format = " + LocalizedStringCall(e.key, MakeStringLiteral(e.comment)))])
    requires o4 == Render(o3, [Line(level + 1, "let string = String(format: format, " + ParameterUsage(|e.placeholders|) + ")")])
    requires o5 == Render(o4, [Line(level + 1, "return Text(verbatim: string)")])
    requires out == Render(o5, [Line(level, "}")])
    ensures out == Render(start, EntryFunctionLines(e, level, lib, naming))
  {
    var body := FormatTextBody(level + 1, e);
    var header := Declaration(lib, StaticTextFunc(MemberName(naming, e.key), Parameters(e.placeholders)));
    RenderThree(o2, body[0], body[1], body[2], o3, o4, o5);
    assert [body[0], body[1], body[2]] == body;
    BlockSteps(o1, level, header, body, o2, o5, out);
    RenderStep(start, DocComment(level, e.comment), Block(level, header, body), o1, out);
  }

  /** After its function, an entry with placeholders gets the splicing
      variant exactly when one of them is an object. */
  lemma EntryVariantSteps(e: StringsEntry, level: nat, lib: bool, naming: Naming, start: string, o1: string, out: string)
    requires |e.placeholders| > 0
    requires o1 == Render(start, EntryFunctionLines(e, level, lib, naming))
    requires out == Render(o1, if Object in e.placeholders then ConcatenationLines(e, level, MemberName(naming, e.key)) else [])
    ensures out == Render(start, EntryLines(e, level, lib, naming))
  {
    var variant := if Object in e.placeholders then ConcatenationLines(e, level, MemberName(naming, e.key)) else [];
    RenderStep(start, EntryFunctionLines(e, level, lib, naming), variant, o1, out);
  }

  /** `writeTextConcatenationFunction`: the splicing variant of an entry with an object placeholder. */
  method WriteTextConcatenationFunction(writer: SwiftCodeWriter, key: StringsEntry, memberName: string)
    requires writer.indentationLevel >= 0
    requires Object in key.placeholders
    modifies writer
    ensures writer.indentationLevel == old(writer.indentationLevel)
    ensures writer.output == Render(old(writer.output), ConcatenationLines(key, old(writer.indentationLevel), memberName))
  {
    ghost var level: nat := writer.indentationLevel;
    ghost var start := writer.output;
    OpenConcatenationFunction(writer, key, memberName);
    ghost var o1 := writer.output;
    ghost var inner: nat := writer.indentationLevel;
    WriteConcatenationBody(writer, key);
    ghost var o2 := writer.output;
    writer.CloseBlock();
    ConcatenationSteps(key, level, inner, memberName, start, o1, o2, writer.output);
  }

  /** The splicing variant's doc comment and the opening line of its function. */
  method OpenConcatenationFunction(writer: SwiftCodeWriter, key: StringsEntry, memberName: string)
    requires writer.indentationLevel >= 0
    modifies writer
    ensures writer.indentationLevel == old(writer.indentationLevel) + 1
    ensures writer.output == Render(old(writer.output), DocComment(old(writer.indentationLevel), key.comment) +
      [Line(old(writer.indentationLevel), StaticTextFunc(memberName, ConcatParameters(key.placeholders)) + " {")])
  {
    ghost var level: nat := writer.indentationLevel;
    ghost var start := writer.output;
    writer.AddDocComment(key.comment);
    ghost var o1 := writer.output;
    var header := StaticTextFunc(memberName, ConcatParameters(key.placeholders));
    writer.OpenBlock(header);
    RenderStep(start, DocComment(level, key.comment), [Line(level, header + " {")], o1, writer.output);
  }

  /** The writes of the splicing variant: its doc comment and opening line, its body, its closing line. */
  lemma ConcatenationSteps(e: StringsEntry, level: nat, inner: nat, memberName: string, start: string, o1: string, o2: string, out: string)
    requires Object in e.placeholders && inner == level + 1
    requires o1 == Render(start, DocComment(level, e.comment) + [Line(level, StaticTextFunc(memberName, ConcatParameters(e.placeholders)) + " {")])
    requires o2 == Render(o1, ConcatenationBody(e, inner))
    requires out == Render(o2, [Line(level, "}")])
    ensures out == Render(start, ConcatenationLines(e, level, memberName))
  {
    var header := StaticTextFunc(memberName, ConcatParameters(e.placeholders));
    var doc := DocComment(level, e.comment);
    var body := ConcatenationBody(e, level + 1);
    RenderConcat(start, doc, [Line(level, header + " {")]);
    BlockSteps(Render(start, doc), level, header, body, o1, o2, out);
    RenderStep(start, doc, Block(level, header, body), Render(start, doc), out);
  }

  /** The body of the splicing variant, at the writer's level. */
  method WriteConcatenationBody(writer: SwiftCodeWriter, key: StringsEntry)
    requires writer.indentationLevel >= 0
    requires Object in key.placeholders
    modifies writer
    ensures writer.indentationLevel == old(writer.indentationLevel)
    ensures writer.output == Render(old(writer.output), ConcatenationBody(key, old(writer.indentationLevel)))
  {
    ghost var level: nat := writer.indentationLevel;
    ghost var start := writer.output;
    var ps := key.placeholders;
    var firstTextPlaceholderIndex := FirstObject(ps);
    var lastTextPlaceholderIndex := LastObject(ps);
    WriteFirstSpan(writer, key, firstTextPlaceholderIndex);
    ghost var o1 := writer.output;
    var lastCodeGeneratedPlaceholderNumber := firstTextPlaceholderIndex;
    if firstTextPlaceholderIndex != lastTextPlaceholderIndex {
      WriteLaterSpans(writer, ps, firstTextPlaceholderIndex, lastCodeGeneratedPlaceholderNumber);
    }
    ghost var o2 := writer.output;
    writer.AddLine(FinalSpanLine(lastTextPlaceholderIndex));
    ghost var o3 := writer.output;
    writer.AddLine("return text");
    ConcatenationBodySteps(key, level, start, o1, o2, o3, writer.output);
  }

  /** The format lines, then the first object placeholder's guard, the fixed
      doc comment and the first span. */
  method WriteFirstSpan(writer: SwiftCodeWriter, key: StringsEntry, firstTextPlaceholderIndex: nat)
    requires writer.indentationLevel >= 0
    modifies writer
    ensures writer.indentationLevel == old(writer.indentationLevel)
    ensures writer.output == Render(old(writer.output), ConcatenationOpening(key, old(writer.indentationLevel)) + FirstSpan(firstTextPlaceholderIndex, old(writer.indentationLevel)))
  {
    ghost var level: nat := writer.indentationLevel;
    ghost var start := writer.output;
    writer.AddLine("let format = " + LocalizedStringCall(key.key, MakeStringLiteral(key.comment)));
    ghost var o1 := writer.output;
    writer.AddLine("let temporaryString = String(format: format, " + ConcatUsage(key.placeholders) + ")");
    ghost var o2 := writer.output;
    WriteGuard(writer, firstTextPlaceholderIndex);
    ghost var o3 := writer.output;
    writer.AddDocComment(FirstPartComment);
    FirstPartCommentDoc(level);
    ghost var o4 := writer.output;
    writer.AddLine(FirstSpanLine(firstTextPlaceholderIndex));
    FirstSpanSteps(key, firstTextPlaceholderIndex, level, start, o1, o2, o3, o4, writer.output);
  }

  /** The writes of `WriteFirstSpan`, piece by piece. */
  lemma FirstSpanSteps(e: StringsEntry, f: nat, level: nat, start: string, o1: string, o2: string, o3: string, o4: string, out: string)
    requires o1 == Render(start, [Line(level, "let format = " + LocalizedStringCall(e.key, MakeStringLiteral(e.comment)))])
    requires o2 == Render(o1, [Line(level, "let temporaryString = String(format: format, " + ConcatUsage(e.placeholders) + ")")])
    requires o3 == Render(o2, GuardLines(f, level))
    requires o4 == Render(o3, FirstPartDoc(level))
    requires out == Render(o4, [Line(level, FirstSpanLine(f))])
    ensures out == Render(start, ConcatenationOpening(e, level) + FirstSpan(f, level))
  {
    var opening := ConcatenationOpening(e, level);
    RenderTwo(start, opening[0], opening[1], o1, o2);
    RenderStep(o2, GuardLines(f, level), FirstPartDoc(level), o3, o4);
    RenderStep(o2, GuardLines(f, level) + FirstPartDoc(level), [Line(level, FirstSpanLine(f))], o4, out);
    RenderStep(start, opening, FirstSpan(f, level), o2, out);
  }

  /** The loop over the placeholders after the first object placeholder:
      for each object placeholder, its guard and its span, which starts at
      the marker of placeholder `lastCodeGeneratedPlaceholderNumber`. */
  method WriteLaterSpans(writer: SwiftCodeWriter, ps: seq<PlaceholderType>, firstTextPlaceholderIndex: nat, lastCodeGeneratedPlaceholderNumber: nat)
    requires writer.indentationLevel >= 0
    requires lastCodeGeneratedPlaceholderNumber == firstTextPlaceholderIndex
    modifies writer
    ensures writer.indentationLevel == old(writer.indentationLevel)
    ensures writer.output == Render(old(writer.output), LaterSpans(ps, lastCodeGeneratedPlaceholderNumber, old(writer.indentationLevel), |ps|))
  {
    ghost var level: nat := writer.indentationLevel;
    ghost var start := writer.output;
    ghost var written: seq<Line> := [];
    for index := 0 to |ps|
      invariant writer.indentationLevel == level
      invariant written == LaterSpans(ps, lastCodeGeneratedPlaceholderNumber, level, index)
      invariant writer.output == Render(start, written)
    {
      ghost var before := writer.output;
      ghost var step := if index > lastCodeGeneratedPlaceholderNumber && ps[index] == Object
        then GuardLines(index, level) + [Line(level, SpanLine(lastCodeGeneratedPlaceholderNumber, index))] else [];
      if index > firstTextPlaceholderIndex && ps[index] == Object {
        WriteSpan(writer, lastCodeGeneratedPlaceholderNumber, index);
      }
      RenderStep(start, written, step, before, writer.output);
      LaterSpansSnoc(ps, lastCodeGeneratedPlaceholderNumber, level, index);
      written := written + step;
    }
  }

  /** One more placeholder adds its guard and span when it is an object placeholder after `from`. */
  lemma LaterSpansSnoc(placeholders: seq<PlaceholderType>, from: nat, level: nat, index: nat)
    requires index < |placeholders|
    ensures LaterSpans(placeholders, from, level, index + 1) == LaterSpans(placeholders, from, level, index) +
      if index > from && placeholders[index] == Object then GuardLines(index, level) + [Line(level, SpanLine(from, index))] else []
  {
  }

  /** The body of the loop for an object placeholder: its guard, then the
      span from placeholder `from`'s marker to its own, then its text. */
  method WriteSpan(writer: SwiftCodeWriter, from: nat, index: nat)
    requires writer.indentationLevel >= 0
    modifies writer
    ensures writer.indentationLevel == old(writer.indentationLevel)
    ensures writer.output == Render(old(writer.output), GuardLines(index, old(writer.indentationLevel)) + [Line(old(writer.indentationLevel), SpanLine(from, index))])
  {
    ghost var level: nat := writer.indentationLevel;
    ghost var before := writer.output;
    WriteGuard(writer, index);
    ghost var mid := writer.output;
    writer.AddLine(SpanLine(from, index));
    RenderStep(before, GuardLines(index, level), [Line(level, SpanLine(from, index))], mid, writer.output);
  }

  /** The writes of the splicing variant's body, piece by piece. */
  lemma ConcatenationBodySteps(e: StringsEntry, level: nat, start: string, o1: string, o2: string, o3: string, out: string)
    requires Object in e.placeholders
    requires o1 == Render(start, ConcatenationOpening(e, level) + FirstSpan(FirstObject(e.placeholders), level))
    requires o2 == Render(o1, if FirstObject(e.placeholders) != LastObject(e.placeholders) then LaterSpans(e.placeholders, FirstObject(e.placeholders), level, |e.placeholders|) else [])
    requires o3 == Render(o2, [Line(level, FinalSpanLine(LastObject(e.placeholders)))])
    requires out == Render(o3, [Line(level, "return text")])
    ensures out == Render(start, ConcatenationBody(e, level))
  {
    var f := FirstObject(e.placeholders);
    var l := LastObject(e.placeholders);
    var head := ConcatenationOpening(e, level) + FirstSpan(f, level);
    var middle := if f != l then LaterSpans(e.placeholders, f, level, |e.placeholders|) else [];
    RenderStep(start, head, middle, o1, o2);
    RenderTwo(o2, Line(level, FinalSpanLine(l)), Line(level, "return text"), o3, out);
    RenderStep(start, head + middle, ConcatenationClosing(l, level), o2, out);
  }

  /** `inBlock("guard let …Range = temporaryString.range(of: …) else") { fatalError(…) }`. */
  method WriteGuard(writer: SwiftCodeWriter, index: nat)
    requires writer.indentationLevel >= 0
    modifies writer
    ensures writer.indentationLevel == old(writer.indentationLevel)
    ensures writer.output == Render(old(writer.output), GuardLines(index, old(writer.indentationLevel)))
  {
    ghost var level: nat := writer.indentationLevel;
    ghost var start := writer.output;
    var header := "guard let " + RangeName(index) + " = temporaryString.range(of: " + MakeStringLiteral(Marker(index)) + ") else";
    writer.OpenBlock(header);
    ghost var o1 := writer.output;
    writer.AddLine("fatalError(\"Placeholder " + NatToString(index) + " not found in string\")");
    ghost var o2 := writer.output;
    writer.CloseBlock();
    BlockSteps(start, level, header, [Line(level + 1, "fatalError(\"Placeholder " + NatToString(index) + " not found in string\")")], o1, o2, writer.output);
  }
}
