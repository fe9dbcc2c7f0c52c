/**
 * The `NSLocalizedString` mapping: an `enum Strings` with one nested
 * `struct` per sub-collection and one static member per entry, optionally
 * `public` for use from a library.
 */
module LocalizedStringWriter {
  import opened Text
  import opened PlaceholderTypes
  import opened StringsModel
  import opened SwiftCodeWriting
  import opened GeneratorNames

  /** `static var <member>: String { <value> }`. */
  function StaticStringVar(member: string, value: string): string {
    "static var " + (member + ": String { " + value + " }")
  }

  /** `static func <member>(<parameters>) -> String`. */
  function StaticStringFunc(member: string, parameters: string): string {
    "static func " + (member + "(" + parameters + ") -> String")
  }

  /** The member and type lines are declarations. */
  lemma DeclarationTexts(member: string, value: string, parameters: string, typeName: string)
    ensures IsDeclaration(StaticStringVar(member, value)) && IsDeclaration(StaticStringFunc(member, parameters))
    ensures IsDeclaration(NamespaceVar(member, typeName)) && IsDeclaration(StructHeader(typeName))
  {
    assert StaticStringVar(member, value)[..7] == "static ";
    assert StaticStringFunc(member, parameters)[..7] == "static ";
    assert NamespaceVar(member, typeName)[..7] == "static ";
    assert StructHeader(typeName)[..7] == "struct ";
  }

  /** The two-line body of an entry's function: look the format up, then fill it in. */
  function FormatBody(level: nat, getLocalizedString: string, placeholderCount: nat): seq<Line> {
    [Line(level, "let format = " + getLocalizedString),
     Line(level, "return String(format: format, " + ParameterUsage(placeholderCount) + ")")]
  }

  /** The members an entry becomes: its doc comment, then a static variable,
      or a function when the entry has placeholders. */
  function EntryLines(e: StringsEntry, level: nat, lib: bool, naming: Naming): seq<Line> {
    var memberName := MemberName(naming, e.key);
    var getLocalizedString := LocalizedStringCall(e.key, MakeStringLiteral(e.comment));
    DocComment(level, e.comment) +
    if |e.placeholders| == 0 then
      [Line(level, Declaration(lib, StaticStringVar(memberName, getLocalizedString)))]
    else
      Block(level, Declaration(lib, StaticStringFunc(memberName, Parameters(e.placeholders))),
        FormatBody(level + 1, getLocalizedString, |e.placeholders|))
  }

  /** A sub-collection: a blank line, a static variable giving its type, and its struct. */
  function NamespaceLines(name: string, child: StringsCollection, level: nat, lib: bool, naming: Naming): seq<Line>
    decreases child, 4
  {
    var variableName := Identifier(naming, name, false);
    var typeName := Identifier(naming, name, true);
    [Line(level, "")] + [Line(level, Declaration(lib, NamespaceVar(variableName, typeName)))] +
    Block(level, Declaration(lib, StructHeader(typeName)), StringsLines(child, level + 1, lib, naming))
  }

  /** The lines of one item of `c`. */
  function ItemLines(c: StringsCollection, m: Member, level: nat, lib: bool, naming: Naming): seq<Line>
    requires m.NamespaceMember? ==> m.name in c.subCollections
    decreases c, 0
  {
    match m
    case NamespaceMember(name) => NamespaceLines(name, c.subCollections[name], level, lib, naming)
    case EntryMember(e) => EntryLines(e, level, lib, naming)
  }

  /** The lines of the `k`-th item of `c`. */
  function MemberLines(c: StringsCollection, k: nat, level: nat, lib: bool, naming: Naming): seq<Line>
    requires k < MemberCount(c)
    decreases c, 1
  {
    ItemLines(c, MemberAt(c, k), level, lib, naming)
  }

  /** The first `n` items of `c`, written in turn. */
  function MembersLines(c: StringsCollection, n: nat, level: nat, lib: bool, naming: Naming): seq<Line>
    requires n <= MemberCount(c)
    decreases c, 2, n
  {
    if n == 0 then []
    else MembersLines(c, n - 1, level, lib, naming) + MemberLines(c, n - 1, level, lib, naming)
  }

  /** `writeStrings`: every item of the collection, in order. */
  function StringsLines(c: StringsCollection, level: nat, lib: bool, naming: Naming): seq<Line>
    decreases c, 3
  {
    MembersLines(c, MemberCount(c), level, lib, naming)
  }

  /** The whole file: the import and the `enum Strings` holding the tree. */
  function LocalizedStringCode(strings: StringsCollection, lib: bool, naming: Naming): string {
    Render("", [Line(0, "import Foundation")] + Block(0, Declaration(lib, "enum Strings"), StringsLines(strings, 1, lib, naming)))
  }

  /** The file starts with the import line and then the enum's header, `public`
      exactly for a library, and ends with the enum's closing brace. */
  lemma CodeFrame(strings: StringsCollection, lib: bool, naming: Naming)
    ensures HasPrefix(LocalizedStringCode(strings, lib, naming), "import Foundation" + "\n" + Declaration(lib, "enum Strings") + " {")
    ensures var code := LocalizedStringCode(strings, lib, naming); |code| >= 2 && code[|code| - 2..] == "\n}"
  {
    RenderFrame("import Foundation", Declaration(lib, "enum Strings"), StringsLines(strings, 1, lib, naming));
  }

  /** The doc comment of an entry is the same in both forms and declares nothing. */
  lemma DocCommentPlain(level: nat, text: string)
    ensures Publicized(DocComment(level, text)) == DocComment(level, text) && NothingPublic(DocComment(level, text))
  {
    var d := DocComment(level, text);
    DocCommentShape(level, text);
    forall i | 0 <= i < |d|
      ensures !IsDeclaration(d[i].text) && !HasPrefix(d[i].text, "public ")
    {
      if i > 0 {
        PlainText(d[i].text);
      }
    }
    PlainLines(d);
  }

  lemma EntryLinesForms(e: StringsEntry, level: nat, naming: Naming)
    ensures EntryLines(e, level, true, naming) == Publicized(EntryLines(e, level, false, naming))
    ensures NothingPublic(EntryLines(e, level, false, naming))
  {
    var doc := DocComment(level, e.comment);
    DocCommentPlain(level, e.comment);
    var memberName := MemberName(naming, e.key);
    var getLocalizedString := LocalizedStringCall(e.key, MakeStringLiteral(e.comment));
    if |e.placeholders| == 0 {
      var member := [Line(level, Declaration(false, StaticStringVar(memberName, getLocalizedString)))];
      DeclarationTexts(memberName, getLocalizedString, "", "");
      DeclarationLine(level, StaticStringVar(memberName, getLocalizedString));
      PublicizedConcat(doc, member);
    } else {
      var body := FormatBody(level + 1, getLocalizedString, |e.placeholders|);
      PlainText(body[0].text);
      PlainText(body[1].text);
      PlainLines(body);
      var header := StaticStringFunc(memberName, Parameters(e.placeholders));
      DeclarationTexts(memberName, "", Parameters(e.placeholders), "");
      DeclarationBlock(level, header, body, body);
      PublicizedConcat(doc, Block(level, Declaration(false, header), body));
    }
  }

  lemma {:induction false} NamespaceLinesForms(name: string, child: StringsCollection, level: nat, naming: Naming)
    ensures NamespaceLines(name, child, level, true, naming) == Publicized(NamespaceLines(name, child, level, false, naming))
    ensures NothingPublic(NamespaceLines(name, child, level, false, naming))
    decreases child, 4
  {
    var typeVariable := NamespaceVar(Identifier(naming, name, false), Identifier(naming, name, true));
    var header := StructHeader(Identifier(naming, name, true));
    var blank := [Line(level, "")];
    var declaration := [Line(level, Declaration(false, typeVariable))];
    var block := Block(level, Declaration(false, header), StringsLines(child, level + 1, false, naming));
    StringsLinesForms(child, level + 1, naming);
    DeclarationTexts(Identifier(naming, name, false), "", "", Identifier(naming, name, true));
    PlainLines(blank);
    DeclarationLine(level, typeVariable);
    DeclarationBlock(level, header, StringsLines(child, level + 1, false, naming), StringsLines(child, level + 1, true, naming));
    PublicizedConcat(blank, declaration);
    PublicizedConcat(blank + declaration, block);
  }

  lemma {:induction false} ItemLinesForms(c: StringsCollection, m: Member, level: nat, naming: Naming)
    requires m.NamespaceMember? ==> m.name in c.subCollections
    ensures ItemLines(c, m, level, true, naming) == Publicized(ItemLines(c, m, level, false, naming))
    ensures NothingPublic(ItemLines(c, m, level, false, naming))
    decreases c, 0
  {
    match m
    case NamespaceMember(name) => NamespaceLinesForms(name, c.subCollections[name], level, naming);
    case EntryMember(e) => EntryLinesForms(e, level, naming);
  }

  lemma {:induction false} MembersLinesForms(c: StringsCollection, n: nat, level: nat, naming: Naming)
    requires n <= MemberCount(c)
    ensures MembersLines(c, n, level, true, naming) == Publicized(MembersLines(c, n, level, false, naming))
    ensures NothingPublic(MembersLines(c, n, level, false, naming))
    decreases c, 2, n
  {
    if n > 0 {
      MembersLinesForms(c, n - 1, level, naming);
      ItemLinesForms(c, MemberAt(c, n - 1), level, naming);
      PublicizedConcat(MembersLines(c, n - 1, level, false, naming), MemberLines(c, n - 1, level, false, naming));
    }
  }

  /** The library code of a tree is its application code with `public ` in
      front of every declaration, and the application code declares nothing `public`. */
  lemma {:induction false} StringsLinesForms(c: StringsCollection, level: nat, naming: Naming)
    ensures StringsLines(c, level, true, naming) == Publicized(StringsLines(c, level, false, naming))
    ensures NothingPublic(StringsLines(c, level, false, naming))
    decreases c, 3
  {
    MembersLinesForms(c, MemberCount(c), level, naming);
  }

  /** The generator, with the file-wide flag that one library request sets for good. */
  class LocalizedStringCodeGenerator {
    var isConstructingForLibrary: bool

    constructor()
      ensures !isConstructingForLibrary
    {
      isConstructingForLibrary := false;
    }

    /** `makeLocalizedStringCode(strings:isForLibrary:)`. */
    method MakeLocalizedStringCode(strings: StringsCollection, isForLibrary: bool, naming: Naming) returns (code: string)
      modifies this
      ensures isConstructingForLibrary == (old(isConstructingForLibrary) || isForLibrary)
      ensures code == LocalizedStringCode(strings, isConstructingForLibrary, naming)
    {
      if isForLibrary {
        isConstructingForLibrary := isForLibrary;
      }
      code := WriteCode(strings, isConstructingForLibrary, naming);
    }
  }

  // The writing below reads the flag as `lib`: nothing changes it while a file is written.

  /** The body of `makeLocalizedStringCode` after the flag is set: a fresh
      writer, the import, and the enum around the tree. */
  method WriteCode(strings: StringsCollection, lib: bool, naming: Naming) returns (code: string)
    ensures code == LocalizedStringCode(strings, lib, naming)
  {
    var writer := new SwiftCodeWriter();
    writer.AddLine("import Foundation");
    ghost var o1 := writer.output;
    WriteBlock(Declaration(lib, "enum Strings"), strings, writer, lib, naming);
    code := writer.output;
    CodeSteps(strings, lib, naming, o1, code);
  }

  /** `inBlock(header) { writeStrings(strings:writer:) }`. */
  method WriteBlock(header: string, strings: StringsCollection, writer: SwiftCodeWriter, lib: bool, naming: Naming)
    requires writer.indentationLevel >= 0
    modifies writer
    ensures writer.indentationLevel == old(writer.indentationLevel)
    ensures writer.output == Render(old(writer.output), Block(old(writer.indentationLevel), header, StringsLines(strings, old(writer.indentationLevel) + 1, lib, naming)))
    decreases strings, 3
  {
    ghost var level: nat := writer.indentationLevel;
    ghost var start := writer.output;
    writer.OpenBlock(header);
    ghost var o1 := writer.output;
    WriteStrings(strings, writer, lib, naming);
    ghost var o2 := writer.output;
    writer.CloseBlock();
    BlockSteps(start, level, header, StringsLines(strings, level + 1, lib, naming), o1, o2, writer.output);
  }

  /** `writeStrings`: appends the code for `strings` at the writer's level. */
  method WriteStrings(strings: StringsCollection, writer: SwiftCodeWriter, lib: bool, naming: Naming)
    requires writer.indentationLevel >= 0
    modifies writer
    ensures writer.indentationLevel == old(writer.indentationLevel)
    ensures writer.output == Render(old(writer.output), StringsLines(strings, old(writer.indentationLevel), lib, naming))
    decreases strings, 2
  {
    ghost var level: nat := writer.indentationLevel;
    ghost var start := writer.output;
    var names := SortedKeys(strings.subCollections.Keys);
    for i := 0 to |names|
      invariant writer.indentationLevel == level
      invariant writer.output == Render(start, MembersLines(strings, i, level, lib, naming))
    {
      WriteMember(strings, i, writer, lib, naming, start);
    }
    for j := 0 to |strings.keys|
      invariant writer.indentationLevel == level
      invariant writer.output == Render(start, MembersLines(strings, |names| + j, level, lib, naming))
    {
      WriteMember(strings, |names| + j, writer, lib, naming, start);
    }
  }

  /** The body of either loop of `writeStrings`: the sub-collection named
      `names[k]` for `k` below the number of sub-collections, the entry
      `keys[k - |names|]` after them. Written after the first `k` items, it
      leaves the first `k + 1` written. */
  method WriteMember(strings: StringsCollection, k: nat, writer: SwiftCodeWriter, lib: bool, naming: Naming, ghost start: string)
    requires k < MemberCount(strings)
    requires writer.indentationLevel >= 0
    requires writer.output == Render(start, MembersLines(strings, k, writer.indentationLevel, lib, naming))
    modifies writer
    ensures writer.indentationLevel == old(writer.indentationLevel)
    ensures writer.output == Render(start, MembersLines(strings, k + 1, old(writer.indentationLevel), lib, naming))
    decreases strings, 1
  {
    ghost var level: nat := writer.indentationLevel;
    ghost var before := writer.output;
    match MemberAt(strings, k) {
      case NamespaceMember(name) =>
        WriteNamespace(name, strings.subCollections[name], writer, lib, naming);
      case EntryMember(entry) =>
        WriteEntry(entry, writer, lib, naming);
    }
    MemberStep(strings, k, level, lib, naming, start, before, writer.output);
  }

  /** One pass of the first loop of `writeStrings`. */
  method WriteNamespace(name: string, collection: StringsCollection, writer: SwiftCodeWriter, lib: bool, naming: Naming)
    requires writer.indentationLevel >= 0
    modifies writer
    ensures writer.indentationLevel == old(writer.indentationLevel)
    ensures writer.output == Render(old(writer.output), NamespaceLines(name, collection, old(writer.indentationLevel), lib, naming))
    decreases collection, 4
  {
    ghost var level: nat := writer.indentationLevel;
    ghost var start := writer.output;
    writer.AddLine("");
    ghost var o1 := writer.output;
    var variableName := Identifier(naming, name, false);
    var typeName := Identifier(naming, name, true);
    writer.AddLine(Declaration(lib, NamespaceVar(variableName, typeName)));
    ghost var o2 := writer.output;
    WriteBlock(Declaration(lib, StructHeader(typeName)), collection, writer, lib, naming);
    NamespaceSteps(name, collection, level, lib, naming, start, o1, o2, writer.output);
  }

  /** One pass of the second loop of `writeStrings`. */
  method WriteEntry(key: StringsEntry, writer: SwiftCodeWriter, lib: bool, naming: Naming)
    requires writer.indentationLevel >= 0
    modifies writer
    ensures writer.indentationLevel == old(writer.indentationLevel)
    ensures writer.output == Render(old(writer.output), EntryLines(key, old(writer.indentationLevel), lib, naming))
  {
    ghost var level: nat := writer.indentationLevel;
    ghost var start := writer.output;
    writer.AddDocComment(key.comment);
    ghost var o1 := writer.output;
    var memberName := MemberName(naming, key.key);
    var getLocalizedString := LocalizedStringCall(key.key, MakeStringLiteral(key.comment));
    if |key.placeholders| == 0 {
      writer.AddLine(Declaration(lib, StaticStringVar(memberName, getLocalizedString)));
      EntryVarSteps(key, level, lib, naming, start, o1, writer.output);
    } else {
      var functionBlock := Declaration(lib, StaticStringFunc(memberName, Parameters(key.placeholders)));
      writer.OpenBlock(functionBlock);
      ghost var o2 := writer.output;
      writer.AddLine("let format = " + getLocalizedString);
      ghost var o3 := writer.output;
      writer.AddLine("return String(format: format, " + ParameterUsage(|key.placeholders|) + ")");
      ghost var o4 := writer.output;
      writer.CloseBlock();
      EntryFunctionSteps(key, level, lib, naming, start, o1, o2, o3, o4, writer.output);
    }
  }

  /** The writes of an entry without placeholders: its doc comment, then its variable. */
  lemma EntryVarSteps(e: StringsEntry, level: nat, lib: bool, naming: Naming, start: string, o1: string, out: string)
    requires |e.placeholders| == 0
    requires o1 == Render(start, DocComment(level, e.comment))
    requires out == Render(o1, [Line(level, Declaration(lib, StaticStringVar(MemberName(naming, e.key), LocalizedStringCall(e.key, MakeStringLiteral(e.comment)))))])
    ensures out == Render(start, EntryLines(e, level, lib, naming))
  {
    RenderConcat(start, DocComment(level, e.comment), [Line(level, Declaration(lib, StaticStringVar(MemberName(naming, e.key), LocalizedStringCall(e.key, MakeStringLiteral(e.comment)))))]);
  }

  /** The writes of an entry with placeholders: its doc comment, then its function block. */
  lemma EntryFunctionSteps(e: StringsEntry, level: nat, lib: bool, naming: Naming, start: string, o1: string, o2: string, o3: string, o4: string, out: string)
    requires |e.placeholders| > 0
    requires o1 == Render(start, DocComment(level, e.comment))
    requires o2 == Render(o1, [Line(level, Declaration(lib, StaticStringFunc(MemberName(naming, e.key), Parameters(e.placeholders))) + " {")])
    requires o3 == Render(o2, [Line(level + 1, "let format = " + LocalizedStringCall(e.key, MakeStringLiteral(e.comment)))])
    requires o4 == Render(o3, [Line(level + 1, "return String(format: format, " + ParameterUsage(|e.placeholders|) + ")")])
    requires out == Render(o4, [Line(level, "}")])
    ensures out == Render(start, EntryLines(e, level, lib, naming))
  {
    var body := FormatBody(level + 1, LocalizedStringCall(e.key, MakeStringLiteral(e.comment)), |e.placeholders|);
    RenderBlockOfTwoAfter(start, DocComment(level, e.comment), level, Declaration(lib, StaticStringFunc(MemberName(naming, e.key), Parameters(e.placeholders))),
      body[0], body[1], o1, o2, o3, o4, out);
    assert [body[0], body[1]] == body;
  }

  /** The writes of the whole file: the import, then the enum around the tree. */
  lemma CodeSteps(strings: StringsCollection, lib: bool, naming: Naming, o1: string, out: string)
    requires o1 == Render("", [Line(0, "import Foundation")])
    requires out == Render(o1, Block(0, Declaration(lib, "enum Strings"), StringsLines(strings, 1, lib, naming)))
    ensures out == LocalizedStringCode(strings, lib, naming)
  {
    RenderConcat("", [Line(0, "import Foundation")], Block(0, Declaration(lib, "enum Strings"), StringsLines(strings, 1, lib, naming)));
  }

  /** The writes of a sub-collection: a blank line, its type variable, its struct. */
  lemma NamespaceSteps(name: string, child: StringsCollection, level: nat, lib: bool, naming: Naming, start: string, o1: string, o2: string, out: string)
    requires o1 == Render(start, [Line(level, "")])
    requires o2 == Render(o1, [Line(level, Declaration(lib, NamespaceVar(Identifier(naming, name, false), Identifier(naming, name, true))))])
    requires out == Render(o2, Block(level, Declaration(lib, StructHeader(Identifier(naming, name, true))), StringsLines(child, level + 1, lib, naming)))
    ensures out == Render(start, NamespaceLines(name, child, level, lib, naming))
  {
    var declaration := [Line(level, Declaration(lib, NamespaceVar(Identifier(naming, name, false), Identifier(naming, name, true))))];
    var block := Block(level, Declaration(lib, StructHeader(Identifier(naming, name, true))), StringsLines(child, level + 1, lib, naming));
    RenderStep(start, [Line(level, "")], declaration, o1, o2);
    RenderStep(start, [Line(level, "")] + declaration, block, o2, out);
  }

  /** One more item written, whatever its lines. */
  lemma MemberStep(c: StringsCollection, n: nat, level: nat, lib: bool, naming: Naming, start: string, before: string, out: string)
    requires n < MemberCount(c)
    requires before == Render(start, MembersLines(c, n, level, lib, naming))
    requires out == Render(before, MemberLines(c, n, level, lib, naming))
    ensures out == Render(start, MembersLines(c, n + 1, level, lib, naming))
  {
    RenderConcat(start, MembersLines(c, n, level, lib, naming), MemberLines(c, n, level, lib, naming));
  }

}
