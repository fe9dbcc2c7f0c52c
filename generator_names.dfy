/**
 * What the Swift writers share: the names they derive from keys and
 * placeholders, and the `public ` modifier a library build puts in front of
 * declarations. The case conversion for the configured key style and the
 * Swift-identifier escaping are defined outside the generator's files
 * modelled here, so the writers take them as given functions.
 */
module GeneratorNames {
  import opened Text
  import opened PlaceholderTypes
  import opened SwiftCodeWriting
  import opened StringsModel

  /** `camelCase(from: caseStyle, upper:)` and `swiftIdentifier`. */
  datatype Naming = Naming(camelCase: (string, bool) -> string, swiftIdentifier: string -> string)

  /** `key.split(separator: ".").last ?? ""`. */
  function LastSegment(key: string): string {
    var parts := Split(key, '.');
    if |parts| == 0 then "" else parts[|parts| - 1]
  }

  /** The last segment is empty only for a key with no segment; otherwise it
      is the last piece of the key and holds no dot. */
  lemma LastSegmentFacts(key: string)
    ensures LastSegment(key) == "" <==> Split(key, '.') == []
    ensures LastSegment(key) != "" ==> '.' !in LastSegment(key) && LastSegment(key) == Split(key, '.')[|Split(key, '.')| - 1]
  {
    SplitFacts(key, '.');
  }

  /** The member an entry becomes: its last key segment in lower camel case. */
  function MemberName(naming: Naming, key: string): string {
    naming.camelCase(LastSegment(key), false)
  }

  /** A collection name as a Swift identifier: camel case (upper for a type name), then escaped. */
  function Identifier(naming: Naming, name: string, upper: bool): string {
    naming.swiftIdentifier(naming.camelCase(name, upper))
  }

  /** `placeholder<i>`. */
  function PlaceholderName(i: nat): string {
    "placeholder" + NatToString(i)
  }

  /** Different placeholder indices give different parameter names. */
  lemma PlaceholderNamesDistinct(i: nat, j: nat)
    requires i != j
    ensures PlaceholderName(i) != PlaceholderName(j)
  {
    if PlaceholderName(i) == PlaceholderName(j) {
      assert NatToString(i) == PlaceholderName(i)[11..];
      assert NatToString(j) == PlaceholderName(j)[11..];
      NatToStringInjective(i, j);
    }
  }

  /** `_ placeholder<i>: <type>`. */
  function ParameterDeclaration(i: nat, typeName: string): string {
    "_ " + PlaceholderName(i) + ": " + typeName
  }

  /** The parameter list of a function with the given placeholders, each typed by its raw value. */
  function Parameters(placeholders: seq<PlaceholderType>): string {
    JoinWith(seq(|placeholders|, i requires 0 <= i < |placeholders| => ParameterDeclaration(i, placeholders[i].RawValue())), ", ")
  }

  /** `placeholder0, placeholder1, …` for `n` placeholders. */
  function ParameterUsage(n: nat): string {
    JoinWith(seq(n, i requires 0 <= i < n => PlaceholderName(i)), ", ")
  }

  /** `NSLocalizedString("<key>", comment: <comment literal>)`. */
  function LocalizedStringCall(key: string, commentLiteral: string): string {
    "NSLocalizedString(\"" + key + "\", comment: " + commentLiteral + ")"
  }

  /** `static var <variable>: <T>.Type { <T>.self }`. */
  function NamespaceVar(variableName: string, typeName: string): string {
    "static var " + (variableName + ": " + typeName + ".Type { " + typeName + ".self }")
  }

  function StructHeader(typeName: string): string {
    "struct " + typeName
  }

  /** A declaration, with `public ` in front of it when it is built for a library. */
  function Declaration(isPublic: bool, text: string): string {
    if isPublic then "public " + text else text
  }

  /** A line that declares something: a member, a type or a namespace. */
  predicate IsDeclaration(text: string) {
    HasPrefix(text, "static ") || HasPrefix(text, "struct ") || HasPrefix(text, "enum ") || HasPrefix(text, "extension ")
  }

  /** The public form of a line: `public ` in front of a declaration, anything else unchanged. */
  function PublicLine(l: Line): Line {
    if IsDeclaration(l.text) then Line(l.level, "public " + l.text) else l
  }

  function Publicized(lines: seq<Line>): (r: seq<Line>)
    ensures |r| == |lines| && forall i :: 0 <= i < |lines| ==> r[i] == PublicLine(lines[i])
  {
    seq(|lines|, i requires 0 <= i < |lines| => PublicLine(lines[i]))
  }

  /** No line starts with `public `. */
  predicate NothingPublic(lines: seq<Line>) {
    forall i :: 0 <= i < |lines| ==> !HasPrefix(lines[i].text, "public ")
  }

  lemma PublicizedConcat(a: seq<Line>, b: seq<Line>)
    ensures Publicized(a + b) == Publicized(a) + Publicized(b)
    ensures NothingPublic(a) && NothingPublic(b) ==> NothingPublic(a + b)
  {
    assert forall i :: 0 <= i < |b| ==> (a + b)[|a| + i] == b[i];
  }

  lemma HasPrefixAppend(s: string, p: string, rest: string)
    requires HasPrefix(s, p)
    ensures HasPrefix(s + rest, p)
  {
    assert (s + rest)[..|p|] == s[..|p|];
  }

  /** A declaration does not start with `public `, and stays one when text is added after it. */
  lemma DeclarationFacts(text: string, rest: string)
    requires IsDeclaration(text)
    ensures !HasPrefix(text, "public ") && IsDeclaration(text + rest)
  {
    assert text[0] != 'p';
    if HasPrefix(text, "static ") {
      HasPrefixAppend(text, "static ", rest);
    } else if HasPrefix(text, "struct ") {
      HasPrefixAppend(text, "struct ", rest);
    } else if HasPrefix(text, "enum ") {
      HasPrefixAppend(text, "enum ", rest);
    } else {
      HasPrefixAppend(text, "extension ", rest);
    }
  }

  /** A text whose first character starts no declaration and no `public `. */
  lemma PlainText(text: string)
    requires |text| > 0 && text[0] != 's' && text[0] != 'e' && text[0] != 'p'
    ensures !IsDeclaration(text) && !HasPrefix(text, "public ")
  {
  }

  /** Lines that declare nothing and are not public read the same in both forms. */
  lemma PlainLines(lines: seq<Line>)
    requires forall i :: 0 <= i < |lines| ==> !IsDeclaration(lines[i].text) && !HasPrefix(lines[i].text, "public ")
    ensures Publicized(lines) == lines && NothingPublic(lines)
  {
  }

  /** A declaration line, in its public and its private form. */
  lemma DeclarationLine(level: nat, text: string)
    requires IsDeclaration(text)
    ensures Publicized([Line(level, Declaration(false, text))]) == [Line(level, Declaration(true, text))]
    ensures NothingPublic([Line(level, Declaration(false, text))])
  {
    DeclarationFacts(text, "");
  }

  /** A block under a declaration header, in its public and its private form. */
  lemma DeclarationBlock(level: nat, header: string, body: seq<Line>, publicBody: seq<Line>)
    requires IsDeclaration(header) && publicBody == Publicized(body) && NothingPublic(body)
    ensures Block(level, Declaration(true, header), publicBody) == Publicized(Block(level, Declaration(false, header), body))
    ensures NothingPublic(Block(level, Declaration(false, header), body))
  {
    DeclarationFacts(header, " {");
    DeclarationFacts(header + " {", "");
    assert Declaration(true, header) + " {" == "public " + (header + " {");
    PlainText("}");
    PlainLines([Line(level, "}")]);
    PublicizedConcat([Line(level, header + " {")], body);
    PublicizedConcat([Line(level, header + " {")] + body, [Line(level, "}")]);
  }

  // The walk every writer makes over a collection

  /** One item `writeStrings` writes: a sub-collection by name, or an entry. */
  datatype Member = NamespaceMember(name: string) | EntryMember(entry: StringsEntry)

  /** How many items `writeStrings` writes for `c`. */
  function MemberCount(c: StringsCollection): nat {
    |SortedKeys(c.subCollections.Keys)| + |c.keys|
  }

  /** The `k`-th item `writeStrings` writes: the sub-collections in ascending
      name order, then the entries in stored order. */
  function MemberAt(c: StringsCollection, k: nat): (m: Member)
    requires k < MemberCount(c)
    ensures m.NamespaceMember? ==> m.name in c.subCollections
  {
    var names := SortedKeys(c.subCollections.Keys);
    if k < |names| then NamespaceMember(names[k]) else EntryMember(c.keys[k - |names|])
  }

  /** The items are all the sub-collections, then all the entries in stored order. */
  lemma MembersOrder(c: StringsCollection)
    ensures MemberCount(c) == |c.subCollections| + |c.keys|
    ensures forall k :: 0 <= k < |c.subCollections| ==> MemberAt(c, k).NamespaceMember?
    ensures forall j :: 0 <= j < |c.keys| ==> MemberAt(c, |c.subCollections| + j) == EntryMember(c.keys[j])
  {
    assert |c.subCollections.Keys| == |c.subCollections|;
  }

  /** A collection writes one item per sub-collection and one per entry. */
  lemma MemberCountSplit(c: StringsCollection)
    ensures MemberCount(c) == |c.subCollections| + |c.keys|
  {
    assert |c.subCollections.Keys| == |c.subCollections|;
  }

  /** An item past the sub-collections is the entry at the matching place. */
  lemma EntryAt(c: StringsCollection, k: nat)
    requires |c.subCollections| <= k < |c.subCollections| + |c.keys|
    ensures k < MemberCount(c) && MemberAt(c, k) == EntryMember(c.keys[k - |c.subCollections|])
  {
    MembersOrder(c);
    assert MemberAt(c, |c.subCollections| + (k - |c.subCollections|)) == EntryMember(c.keys[k - |c.subCollections|]);
  }

  /** Every sub-collection is written exactly once, in ascending name order. */
  lemma NamespaceMembersSorted(c: StringsCollection)
    ensures forall k, k' :: 0 <= k < k' < |c.subCollections| ==>
      MemberAt(c, k).NamespaceMember? && MemberAt(c, k').NamespaceMember? && Less(MemberAt(c, k).name, MemberAt(c, k').name)
    ensures forall name :: name in c.subCollections <==>
      exists k :: 0 <= k < |c.subCollections| && MemberAt(c, k) == NamespaceMember(name)
  {
    var names := SortedKeys(c.subCollections.Keys);
    assert |c.subCollections.Keys| == |c.subCollections|;
    SortedKeysAscending(c.subCollections.Keys);
    SortedKeysMembers(c.subCollections.Keys);
    forall name | name in c.subCollections
      ensures exists k :: 0 <= k < |c.subCollections| && MemberAt(c, k) == NamespaceMember(name)
    {
      var k :| 0 <= k < |names| && names[k] == name;
      assert MemberAt(c, k) == NamespaceMember(name);
    }
  }}
