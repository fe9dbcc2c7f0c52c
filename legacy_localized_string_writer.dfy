/**
 * The first revision of the `NSLocalizedString` mapping: an `enum Strings`
 * with one nested `struct` per sub-collection and one static variable per
 * entry. It writes no import line, has no library form, ignores
 * placeholders, and names everything with `camelCase(delimiter: "-", upper:)`.
 */
module LegacyLocalizedStringWriter {
  import opened Text
  import opened PlaceholderTypes
  import opened StringsModel
  import opened SwiftCodeWriting
  import opened GeneratorNames
  import opened ConvertCasing
  import LocalizedStringWriter

  /** `name.camelCase(delimiter: "-", upper: upper)`. */
  function KebabName(name: string, upper: bool): string {
    CamelCase(name, '-', upper)
  }

  /** An entry: its doc comment, then a static variable looking up its full key. */
  function EntryLines(e: StringsEntry, level: nat): seq<Line> {
    var variableName := KebabName(LastSegment(e.key), false);
    DocComment(level, e.comment) +
    [Line(level, LocalizedStringWriter.StaticStringVar(variableName, LocalizedStringCall(e.key, MakeStringLiteral(e.comment))))]
  }

  /** A sub-collection: a blank line, a static variable giving its type, and its struct. */
  function NamespaceLines(name: string, child: StringsCollection, level: nat): seq<Line>
    decreases child, 4
  {
    var variableName := KebabName(name, false);
    var typeName := KebabName(name, true);
    [Line(level, "")] + [Line(level, NamespaceVar(variableName, typeName))] +
    Block(level, StructHeader(typeName), StringsLines(child, level + 1))
  }

  function ItemLines(c: StringsCollection, m: Member, level: nat): seq<Line>
    requires m.NamespaceMember? ==> m.name in c.subCollections
    decreases c, 0
  {
    match m
    case NamespaceMember(name) => NamespaceLines(name, c.subCollections[name], level)
    case EntryMember(e) => EntryLines(e, level)
  }

  function MemberLines(c: StringsCollection, k: nat, level: nat): seq<Line>
    requires k < MemberCount(c)
    decreases c, 1
  {
    ItemLines(c, MemberAt(c, k), level)
  }

  /** The first `n` items of `c`, written in turn. */
  function MembersLines(c: StringsCollection, n: nat, level: nat): seq<Line>
    requires n <= MemberCount(c)
    decreases c, 2, n
  {
    if n == 0 then [] else MembersLines(c, n - 1, level) + MemberLines(c, n - 1, level)
  }

  /** `writeStrings`: the sub-collections in ascending name order, then the entries. */
  function StringsLines(c: StringsCollection, level: nat): seq<Line>
    decreases c, 3
  {
    MembersLines(c, MemberCount(c), level)
  }

  /** The whole file: the `enum Strings` block and nothing around it. */
  function LegacyCode(strings: StringsCollection): string {
    Render("", Block(0, "enum Strings", StringsLines(strings, 1)))
  }

  /** The file is one block: it starts with the enum's header, with no import
      line before it, and ends with the enum's closing brace. */
  lemma {:induction false} LegacyCodeFrame(strings: StringsCollection)
    ensures HasPrefix(LegacyCode(strings), "enum Strings {")
    ensures var code := LegacyCode(strings); |code| >= 2 && code[|code| - 2..] == "\n}"
  {
    BlockFrame("enum Strings", StringsLines(strings, 1));
  }

  /** Placeholders make no difference to what an entry becomes. */
  lemma {:induction false} PlaceholdersIgnored(e: StringsEntry, level: nat, placeholders: seq<PlaceholderType>)
    ensures EntryLines(e.(placeholders := placeholders), level) == EntryLines(e, level)
    ensures |EntryLines(e, level)| == |DocComment(level, e.comment)| + 1
  {
  }

  // The later revision, given the same naming and used for an application,
  // writes the same tree for entries without placeholders.

  /** The naming the first revision hard-codes: kebab-case conversion, no escaping. */
  function KebabNaming(): Naming {
    Naming((s: string, upper: bool) => CamelCase(s, '-', upper), (s: string) => s)
  }

  /** No entry anywhere in the tree has a placeholder. */
  predicate PlaceholderFree(c: StringsCollection)
    decreases c
  {
    && (forall i :: 0 <= i < |c.keys| ==> c.keys[i].placeholders == [])
    && (forall name :: name in c.subCollections ==> PlaceholderFree(c.subCollections[name]))
  }

  lemma {:induction false} NamespaceLinesAgree(name: string, child: StringsCollection, level: nat)
    requires PlaceholderFree(child)
    ensures NamespaceLines(name, child, level) == LocalizedStringWriter.NamespaceLines(name, child, level, false, KebabNaming())
    decreases child, 4
  {
    StringsLinesAgree(child, level + 1);
  }

  lemma {:induction false} EntryLinesAgree(e: StringsEntry, level: nat)
    requires e.placeholders == []
    ensures EntryLines(e, level) == LocalizedStringWriter.EntryLines(e, level, false, KebabNaming())
  {
    assert MemberName(KebabNaming(), e.key) == KebabName(LastSegment(e.key), false);
  }

  lemma {:induction false} ItemLinesAgree(c: StringsCollection, m: Member, level: nat)
    requires PlaceholderFree(c)
    requires m.NamespaceMember? ==> m.name in c.subCollections
    requires m.EntryMember? ==> m.entry.placeholders == []
    ensures ItemLines(c, m, level) == LocalizedStringWriter.ItemLines(c, m, level, false, KebabNaming())
    decreases c, 0
  {
    match m
    case NamespaceMember(name) => NamespaceLinesAgree(name, c.subCollections[name], level);
    case EntryMember(e) => EntryLinesAgree(e, level);
  }

  lemma {:induction false} MembersLinesAgree(c: StringsCollection, n: nat, level: nat)
    requires PlaceholderFree(c) && n <= MemberCount(c)
    ensures MembersLines(c, n, level) == LocalizedStringWriter.MembersLines(c, n, level, false, KebabNaming())
    decreases c, 2, n
  {
    if n > 0 {
      MembersLinesAgree(c, n - 1, level);
      var m := MemberAt(c, n - 1);
      var names := SortedKeys(c.subCollections.Keys);
      if m.EntryMember? {
        assert m.entry == c.keys[n - 1 - |names|];
      }
      ItemLinesAgree(c, m, level);
    }
  }

  /** On a tree without placeholders, the first revision writes exactly the
      lines the later one writes for an application with kebab-case naming. */
  lemma {:induction false} StringsLinesAgree(c: StringsCollection, level: nat)
    requires PlaceholderFree(c)
    ensures StringsLines(c, level) == LocalizedStringWriter.StringsLines(c, level, false, KebabNaming())
    decreases c, 3
  {
    MembersLinesAgree(c, MemberCount(c), level);
  }

  /** On a tree without placeholders, the later revision's application code is
      the first revision's code with `import Foundation` on a line before it. */
  lemma {:induction false} LaterRevisionAddsImport(strings: StringsCollection)
    requires PlaceholderFree(strings)
    ensures LocalizedStringWriter.LocalizedStringCode(strings, false, KebabNaming()) == "import Foundation\n" + LegacyCode(strings)
  {
    StringsLinesAgree(strings, 1);
    var block := Block(0, "enum Strings", StringsLines(strings, 1));
    assert RenderLine(block[0]) == "enum Strings {";
    RenderWithLeadingLine("import Foundation", block);
  }

  /** `makeLocalizedStringCode(strings:)`. */
  method MakeLocalizedStringCode(strings: StringsCollection) returns (code: string)
    ensures code == LegacyCode(strings)
  {
    var writer := new SwiftCodeWriter();
    ghost var start := writer.output;
    writer.OpenBlock("enum Strings");
    ghost var o1 := writer.output;
    WriteStrings(strings, writer);
    ghost var o2 := writer.output;
    writer.CloseBlock();
    BlockSteps(start, 0, "enum Strings", StringsLines(strings, 1), o1, o2, writer.output);
    code := writer.output;
  }

  /** `writeStrings`: appends the code for `strings` at the writer's level. */
  method WriteStrings(strings: StringsCollection, writer: SwiftCodeWriter)
    requires writer.indentationLevel >= 0
    modifies writer
    ensures writer.indentationLevel == old(writer.indentationLevel)
    ensures writer.output == Render(old(writer.output), StringsLines(strings, old(writer.indentationLevel)))
    decreases strings, 2
  {
    ghost var level: nat := writer.indentationLevel;
    ghost var start := writer.output;
    var names := SortedKeys(strings.subCollections.Keys);
    for i := 0 to |names|
      invariant writer.indentationLevel == level
      invariant writer.output == Render(start, MembersLines(strings, i, level))
    {
      WriteMember(strings, i, writer, start);
    }
    for j := 0 to |strings.keys|
      invariant writer.indentationLevel == level
      invariant writer.output == Render(start, MembersLines(strings, |names| + j, level))
    {
      WriteMember(strings, |names| + j, writer, start);
    }
  }

  /** The body of either loop of `writeStrings`, for the `k`-th item. */
  method WriteMember(strings: StringsCollection, k: nat, writer: SwiftCodeWriter, ghost start: string)
    requires k < MemberCount(strings)
    requires writer.indentationLevel >= 0
    requires writer.output == Render(start, MembersLines(strings, k, writer.indentationLevel))
    modifies writer
    ensures writer.indentationLevel == old(writer.indentationLevel)
    ensures writer.output == Render(start, MembersLines(strings, k + 1, old(writer.indentationLevel)))
    decreases strings, 1
  {
    ghost var level: nat := writer.indentationLevel;
    ghost var before := writer.output;
    match MemberAt(strings, k) {
      case NamespaceMember(name) =>
        WriteNamespace(name, strings.subCollections[name], writer);
        assert writer.output == Render(before, MemberLines(strings, k, level));
      case EntryMember(entry) =>
        WriteEntry(entry, writer);
        assert writer.output == Render(before, MemberLines(strings, k, level));
    }
    RenderConcat(start, MembersLines(strings, k, level), MemberLines(strings, k, level));
  }

  /** One pass of the first loop: a blank line, the type variable, the struct. */
  method WriteNamespace(name: string, collection: StringsCollection, writer: SwiftCodeWriter)
    requires writer.indentationLevel >= 0
    modifies writer
    ensures writer.indentationLevel == old(writer.indentationLevel)
    ensures writer.output == Render(old(writer.output), NamespaceLines(name, collection, old(writer.indentationLevel)))
    decreases collection, 4
  {
    ghost var level: nat := writer.indentationLevel;
    ghost var start := writer.output;
    writer.AddLine("");
    ghost var o1 := writer.output;
    var variableName := KebabName(name, false);
    var typeName := KebabName(name, true);
    writer.AddLine(NamespaceVar(variableName, typeName));
    ghost var o2 := writer.output;
    writer.OpenBlock(StructHeader(typeName));
    ghost var o3 := writer.output;
    WriteStrings(collection, writer);
    ghost var o4 := writer.output;
    writer.CloseBlock();
    var body := StringsLines(collection, level + 1);
    BlockSteps(o2, level, StructHeader(typeName), body, o3, o4, writer.output);
    var declaration := [Line(level, NamespaceVar(variableName, typeName))];
    RenderStep(start, [Line(level, "")], declaration, o1, o2);
    RenderStep(start, [Line(level, "")] + declaration, Block(level, StructHeader(typeName), body), o2, writer.output);
  }

  /** One pass of the second loop: the doc comment, then the variable. */
  method WriteEntry(key: StringsEntry, writer: SwiftCodeWriter)
    requires writer.indentationLevel >= 0
    modifies writer
    ensures writer.indentationLevel == old(writer.indentationLevel)
    ensures writer.output == Render(old(writer.output), EntryLines(key, old(writer.indentationLevel)))
  {
    ghost var level: nat := writer.indentationLevel;
    ghost var start := writer.output;
    writer.AddDocComment(key.comment);
    ghost var o1 := writer.output;
    var variableName := KebabName(LastSegment(key.key), false);
    var line := LocalizedStringWriter.StaticStringVar(variableName, LocalizedStringCall(key.key, MakeStringLiteral(key.comment)));
    writer.AddLine(line);
    RenderStep(start, DocComment(level, key.comment), [Line(level, line)], o1, writer.output);
  }
}
