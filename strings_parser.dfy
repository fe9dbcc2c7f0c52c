/**
 * The strings-file model: a tree of collections keyed by the dot-separated
 * segments of the string keys, the entries stored at its nodes, and the
 * line-by-line parser that fills it from a `.strings` file whose key/value
 * pairs have already been decoded.
 */
module StringsModel {
  import opened Wrappers
  import opened Text
  import opened PlaceholderTypes

  /** One string of a strings file, with the comment above it and where it was found. */
  datatype StringsEntry = StringsEntry(
    key: string,
    comment: string,
    value: Option<string>,
    file: string,
    line: int,
    placeholders: seq<PlaceholderType>)

  /** A node of the tree: its entries and its named sub-collections. */
  datatype StringsCollection = StringsCollection(keys: seq<StringsEntry>, subCollections: map<string, StringsCollection>)

  const EmptyCollection := StringsCollection([], map[])

  /** The sub-collection `name`, or an empty collection where there is none. */
  function Child(c: StringsCollection, name: string): StringsCollection {
    if name in c.subCollections then c.subCollections[name] else EmptyCollection
  }

  // The collectionForKey subscript

  /** The getter: the collection holding `key`, descending every
      dot-separated segment of the key but the last. */
  function CollectionForKey(c: StringsCollection, key: string): StringsCollection
    decreases |Split(key, '.')|
  {
    var parts := Split(key, '.');
    if |parts| <= 1 then c
    else
      var remaining := parts[1..];
      var first := Child(c, parts[0]);
      if |remaining| > 1 then
        SplitFacts(key, '.');
        SplitJoin(remaining, '.');
        CollectionForKey(first, Join(remaining, '.'))
      else first
  }

  /** The setter: the tree with the collection for `key` replaced by `newValue`. */
  function SetCollectionForKey(c: StringsCollection, key: string, newValue: StringsCollection): StringsCollection
    decreases |Split(key, '.')|
  {
    var parts := Split(key, '.');
    if |parts| <= 1 then newValue
    else
      var remaining := parts[1..];
      var sub := Child(c, parts[0]);
      var updated :=
        if |remaining| > 1 then
          SplitFacts(key, '.');
          SplitJoin(remaining, '.');
          SetCollectionForKey(sub, Join(remaining, '.'), newValue)
        else newValue;
      c.(subCollections := c.subCollections[parts[0] := updated])
  }

  /** The reference walk: follow every name of `path`, an empty collection where a link is missing. */
  function Descend(c: StringsCollection, path: seq<string>): StringsCollection
    decreases |path|
  {
    if |path| == 0 then c else Descend(Child(c, path[0]), path[1..])
  }

  function AllButLast(parts: seq<string>): seq<string> {
    if |parts| == 0 then [] else parts[..|parts| - 1]
  }

  /** A key with at most one segment names the collection itself: the getter
      returns it and the setter replaces it with the new value. */
  lemma SingleSegmentIsSelf(c: StringsCollection, key: string, v: StringsCollection)
    requires |Split(key, '.')| <= 1
    ensures CollectionForKey(c, key) == c
    ensures SetCollectionForKey(c, key, v) == v
  {
  }

  /** The getter descends every segment of the key but the last. */
  lemma {:induction false} GetterDescends(c: StringsCollection, key: string)
    ensures CollectionForKey(c, key) == Descend(c, AllButLast(Split(key, '.')))
    decreases |Split(key, '.')|
  {
    var parts := Split(key, '.');
    if |parts| > 2 {
      var remaining := parts[1..];
      SplitFacts(key, '.');
      SplitJoin(remaining, '.');
      GetterDescends(Child(c, parts[0]), Join(remaining, '.'));
      assert AllButLast(parts)[1..] == AllButLast(remaining);
    } else if |parts| == 2 {
      assert AllButLast(parts) == [parts[0]];
    }
  }

  /** Reading back the collection just written gives it. */
  lemma {:induction false} GetAfterSet(c: StringsCollection, key: string, v: StringsCollection)
    ensures CollectionForKey(SetCollectionForKey(c, key, v), key) == v
    decreases |Split(key, '.')|
  {
    var parts := Split(key, '.');
    if |parts| > 2 {
      var remaining := parts[1..];
      SplitFacts(key, '.');
      SplitJoin(remaining, '.');
      GetAfterSet(Child(c, parts[0]), Join(remaining, '.'), v);
    }
  }

  /** Writing below the first segment of a key leaves the node's entries and
      every other top-level sub-collection as they were. */
  lemma SetKeepsOtherChildren(c: StringsCollection, key: string, v: StringsCollection)
    requires |Split(key, '.')| >= 2
    ensures var r := SetCollectionForKey(c, key, v);
      && r.keys == c.keys
      && r.subCollections.Keys == c.subCollections.Keys + {Split(key, '.')[0]}
      && forall n :: n in c.subCollections && n != Split(key, '.')[0] ==> r.subCollections[n] == c.subCollections[n]
  {
  }

  // The entry lookup subscript

  /** The first of `entries` whose key is `key`. */
  function FirstWithKey(entries: seq<StringsEntry>, key: string): (r: Option<StringsEntry>)
    ensures r.None? <==> forall i :: 0 <= i < |entries| ==> entries[i].key != key
    ensures r.Some? ==> exists i :: 0 <= i < |entries| && entries[i] == r.value && r.value.key == key
                                    && forall j :: 0 <= j < i ==> entries[j].key != key
  {
    if |entries| == 0 then None
    else if entries[0].key == key then Some(entries[0])
    else
      var r := FirstWithKey(entries[1..], key);
      FirstMatchShifts(entries, key, r);
      r
  }

  lemma FirstMatchShifts(entries: seq<StringsEntry>, key: string, r: Option<StringsEntry>)
    requires |entries| > 0 && entries[0].key != key
    requires r.Some? ==> exists i :: 0 <= i < |entries[1..]| && entries[1..][i] == r.value && r.value.key == key
                                     && forall j :: 0 <= j < i ==> entries[1..][j].key != key
    ensures r.Some? ==> exists i :: 0 <= i < |entries| && entries[i] == r.value && r.value.key == key
                                    && forall j :: 0 <= j < i ==> entries[j].key != key
  {
    if r.Some? {
      var i :| 0 <= i < |entries[1..]| && entries[1..][i] == r.value && r.value.key == key
               && forall j :: 0 <= j < i ==> entries[1..][j].key != key;
      assert entries[i + 1] == r.value;
      forall j | 0 <= j < i + 1 ensures entries[j].key != key {
        if j > 0 { assert entries[j] == entries[1..][j - 1]; }
      }
    }
  }

  /** Appending an entry leaves the first match in place, or makes the new entry the match. */
  lemma {:induction false} FirstWithKeyAppend(entries: seq<StringsEntry>, e: StringsEntry)
    ensures FirstWithKey(entries + [e], e.key) == if FirstWithKey(entries, e.key).Some? then FirstWithKey(entries, e.key) else Some(e)
  {
    if |entries| > 0 {
      FirstWithKeyAppend(entries[1..], e);
      assert (entries + [e])[1..] == entries[1..] + [e];
    }
  }

  /** `self[key]`: the first entry with key `key` in the collection for `key`. */
  function Lookup(c: StringsCollection, key: string): Option<StringsEntry> {
    FirstWithKey(CollectionForKey(c, key).keys, key)
  }

  /** What `storeEntry` makes of the tree: `e` appended at the node for its key. */
  function Store(c: StringsCollection, e: StringsEntry): StringsCollection {
    var node := CollectionForKey(c, e.key);
    SetCollectionForKey(c, e.key, node.(keys := node.keys + [e]))
  }

  /** After storing, the node for the key holds one more entry, the new one last. */
  lemma StoreAppendsAtNode(c: StringsCollection, e: StringsEntry)
    ensures CollectionForKey(Store(c, e), e.key).keys == CollectionForKey(c, e.key).keys + [e]
    ensures |CollectionForKey(Store(c, e), e.key).keys| == |CollectionForKey(c, e.key).keys| + 1
  {
    var node := CollectionForKey(c, e.key);
    GetAfterSet(c, e.key, node.(keys := node.keys + [e]));
  }

  /** After storing, the key is found, and the entry found is the first one stored under it. */
  lemma StoreThenLookup(c: StringsCollection, e: StringsEntry)
    ensures Lookup(Store(c, e), e.key).Some? && Lookup(Store(c, e), e.key).value.key == e.key
    ensures Lookup(Store(c, e), e.key) == if Lookup(c, e.key).Some? then Lookup(c, e.key) else Some(e)
  {
    StoreAppendsAtNode(c, e);
    FirstWithKeyAppend(CollectionForKey(c, e.key).keys, e);
  }

  // Lines

  datatype LineResult = Unrecognized(rawLine: string) | Comment(text: string) | Entry(entry: StringsEntry)

  // `// MARK:` lines and lines opening a block comment are ignored.
  predicate IsIgnoredLine(line: string) {
    HasPrefix(line, "// MARK:") || HasPrefix(line, "/*")
  }

  /** The text of a comment line after its `///` or `//`. */
  function CommentText(line: string): (r: string)
    requires HasPrefix(line, "//")
    ensures line == (if HasPrefix(line, "///") then "///" else "//") + r
  {
    if HasPrefix(line, "///") then line[3..] else line[2..]
  }

  /** The pending comment after a comment line: a newline only between lines. */
  function AppendComment(comment: string, text: string): string {
    (if comment != "" then comment + "\n" else "") + Trim(text)
  }

  /** The pending comment is the trimmed comment lines joined by newlines. */
  lemma {:induction false} AppendCommentJoins(lines: seq<string>, text: string)
    requires |lines| == 0 || JoinWith(lines, "\n") != ""
    ensures AppendComment(JoinWith(lines, "\n"), text) == JoinWith(lines + [Trim(text)], "\n")
    decreases |lines|
  {
    if |lines| == 1 {
      assert (lines + [Trim(text)])[1..] == [Trim(text)];
    } else if |lines| > 1 {
      if JoinWith(lines[1..], "\n") == "" {
        assert JoinWith(lines, "\n") == lines[0] + "\n";
      }
      assert |lines[1..]| == 0 || JoinWith(lines[1..], "\n") != "" || JoinWith(lines[1..], "\n") == "";
      JoinWithSnoc(lines, Trim(text), "\n");
    }
  }

  /** The index of the first `"` at or after `i`. */
  function NextQuote(s: string, i: nat): (r: Option<nat>)
    requires i <= |s|
    ensures r.Some? ==> i <= r.value < |s| && s[r.value] == '"'
    ensures r.Some? ==> forall k :: i <= k < r.value ==> s[k] != '"'
    ensures r.None? ==> forall k :: i <= k < |s| ==> s[k] != '"'
    decreases |s| - i
  {
    if i == |s| then None else if s[i] == '"' then Some(i) else NextQuote(s, i + 1)
  }

  /** The contents of the leftmost match of `"[^"]+"` at or after `i`. */
  function FirstQuotedFrom(s: string, i: nat): (r: Option<string>)
    requires i <= |s|
    ensures r.Some? ==> r.value != "" && forall k :: 0 <= k < |r.value| ==> r.value[k] != '"'
    decreases |s| - i
  {
    if i == |s| then None
    else if s[i] == '"' && NextQuote(s, i + 1).Some? && NextQuote(s, i + 1).value > i + 1 then
      Some(s[i + 1..NextQuote(s, i + 1).value])
    else FirstQuotedFrom(s, i + 1)
  }

  /** The key of an entry line: the text between the first pair of quotes that encloses something. */
  function KeyOf(line: string): Option<string> {
    FirstQuotedFrom(line, 0)
  }

  /** A line that starts with a quoted key gives that key back. */
  lemma KeyOfQuoted(key: string, rest: string)
    requires key != "" && forall k :: 0 <= k < |key| ==> key[k] != '"'
    ensures KeyOf("\"" + key + "\"" + rest) == Some(key)
  {
    var s := "\"" + key + "\"" + rest;
    assert forall k :: 1 <= k < |key| + 1 ==> s[k] == key[k - 1];
    assert s[|key| + 1] == '"';
    NextQuoteSkips(s, 1, |key| + 1);
    assert s[1..|key| + 1] == key;
  }

  lemma {:induction false} NextQuoteSkips(s: string, i: nat, j: nat)
    requires i <= j < |s| && s[j] == '"'
    requires forall k :: i <= k < j ==> s[k] != '"'
    ensures NextQuote(s, i) == Some(j)
    decreases j - i
  {
    if i < j {
      NextQuoteSkips(s, i + 1, j);
    }
  }

  function ValueFor(pairs: map<string, string>, key: string): Option<string> {
    if key in pairs then Some(pairs[key]) else None
  }

  /** What `parseLine` demands of an entry line: a key it can extract (the
      regex match is force-unwrapped) and a value whose placeholders are
      consistent (their inference is called with `try!`). */
  predicate LineParsable(rawLine: string, pairs: map<string, string>) {
    var line := Trim(rawLine);
    !IsIgnoredLine(line) && !HasPrefix(line, "//") && HasPrefix(line, "\"") ==>
      && KeyOf(line).Some?
      && Infer(FormatSpecifiers(ValueFor(pairs, KeyOf(line).value).GetOr(""))).Success?
  }

  datatype ParserState = ParserState(collection: StringsCollection, comment: string)

  /** The entry an entry line makes, carrying the pending comment. */
  function EntryFor(line: string, pairs: map<string, string>, file: string, lineNumber: int, comment: string): StringsEntry
    requires KeyOf(line).Some?
    requires Infer(FormatSpecifiers(ValueFor(pairs, KeyOf(line).value).GetOr(""))).Success?
  {
    var key := KeyOf(line).value;
    var value := ValueFor(pairs, key);
    StringsEntry(key, comment, value, file, lineNumber, Infer(FormatSpecifiers(value.GetOr(""))).value)
  }

  /** `parseLine` on values: the new collection and pending comment, and the line's result. */
  function ParseLineSpec(st: ParserState, rawLine: string, pairs: map<string, string>, file: string, lineNumber: int): (ParserState, LineResult)
    requires LineParsable(rawLine, pairs)
  {
    var line := Trim(rawLine);
    if IsIgnoredLine(line) then (st, Unrecognized(rawLine))
    else if HasPrefix(line, "//") then
      var text := CommentText(line);
      (st.(comment := AppendComment(st.comment, text)), Comment(Trim(text)))
    else if HasPrefix(line, "\"") then
      var e := EntryFor(line, pairs, file, lineNumber, st.comment);
      (ParserState(Store(st.collection, e), ""), Entry(e))
    else (st, Unrecognized(rawLine))
  }

  /** `// MARK:` lines, block-comment lines and lines that are neither a comment nor an entry are
      returned whole and change neither the collection nor the pending comment. */
  lemma UnrecognizedChangesNothing(st: ParserState, rawLine: string, pairs: map<string, string>, file: string, lineNumber: int)
    requires IsIgnoredLine(Trim(rawLine)) || (!HasPrefix(Trim(rawLine), "//") && !HasPrefix(Trim(rawLine), "\""))
    ensures LineParsable(rawLine, pairs)
    ensures ParseLineSpec(st, rawLine, pairs, file, lineNumber) == (st, Unrecognized(rawLine))
  {
  }

  /** A comment line adds its trimmed text to the pending comment and leaves the collection alone. */
  lemma CommentLineAppends(st: ParserState, rawLine: string, pairs: map<string, string>, file: string, lineNumber: int)
    requires !IsIgnoredLine(Trim(rawLine)) && HasPrefix(Trim(rawLine), "//")
    ensures LineParsable(rawLine, pairs)
    ensures var (st', r) := ParseLineSpec(st, rawLine, pairs, file, lineNumber);
      && st'.collection == st.collection
      && r == Comment(Trim(CommentText(Trim(rawLine))))
      && st'.comment == (if st.comment == "" then r.text else st.comment + "\n" + r.text)
  {
  }

  /** An entry line stores an entry under its key that carries the pending
      comment, the file and the line number, and clears the pending comment. */
  lemma EntryLineStores(st: ParserState, rawLine: string, pairs: map<string, string>, file: string, lineNumber: int)
    requires !IsIgnoredLine(Trim(rawLine)) && !HasPrefix(Trim(rawLine), "//") && HasPrefix(Trim(rawLine), "\"")
    requires LineParsable(rawLine, pairs)
    ensures var (st', r) := ParseLineSpec(st, rawLine, pairs, file, lineNumber);
      && r.Entry?
      && r.entry.key == KeyOf(Trim(rawLine)).value
      && r.entry.comment == st.comment && r.entry.file == file && r.entry.line == lineNumber
      && r.entry.value == ValueFor(pairs, r.entry.key)
      && Success(r.entry.placeholders) == Infer(FormatSpecifiers(r.entry.value.GetOr("")))
      && st'.comment == ""
      && Lookup(st'.collection, r.entry.key).Some?
      && CollectionForKey(st'.collection, r.entry.key).keys == CollectionForKey(st.collection, r.entry.key).keys + [r.entry]
  {
    var e := EntryFor(Trim(rawLine), pairs, file, lineNumber, st.comment);
    StoreThenLookup(st.collection, e);
    StoreAppendsAtNode(st.collection, e);
  }

  predicate AllParsable(lines: seq<string>, pairs: map<string, string>) {
    forall i :: 0 <= i < |lines| ==> LineParsable(lines[i], pairs)
  }

  /** The state after the parser has read `lines`, numbering them from 0. */
  function ParseLines(st: ParserState, lines: seq<string>, pairs: map<string, string>, file: string): ParserState
    requires AllParsable(lines, pairs)
    decreases |lines|
  {
    if |lines| == 0 then st
    else
      var n := |lines| - 1;
      ParseLineSpec(ParseLines(st, lines[..n], pairs, file), lines[n], pairs, file, n).0
  }

  /** The lines of a file's text: `split(separator: "\n", omittingEmptySubsequences: false)`
      over Swift `Character`s, so empty lines are kept and a "\r\n" stays inside its line. */
  function FileLines(input: string): seq<string> {
    SplitLines(input)
  }

  /** The parse of a whole file starts from an empty collection and no pending comment. */
  function ParseFile(input: string, pairs: map<string, string>, file: string): StringsCollection
    requires AllParsable(FileLines(input), pairs)
  {
    ParseLines(ParserState(EmptyCollection, ""), FileLines(input), pairs, file).collection
  }

  /** Parsing lines without any entry line leaves the collection as it was. */
  lemma {:induction false} NoEntryLinesNoChange(st: ParserState, lines: seq<string>, pairs: map<string, string>, file: string)
    requires forall i :: 0 <= i < |lines| ==> !HasPrefix(Trim(lines[i]), "\"")
    ensures AllParsable(lines, pairs)
    ensures ParseLines(st, lines, pairs, file).collection == st.collection
    decreases |lines|
  {
    if |lines| > 0 {
      var n := |lines| - 1;
      NoEntryLinesNoChange(st, lines[..n], pairs, file);
    }
  }

  /** The parser: the collection built so far and the comment waiting for the next entry. */
  class StringsParser {
    var collection: StringsCollection
    var comment: string

    constructor()
      ensures collection == EmptyCollection && comment == ""
    {
      collection := EmptyCollection;
      comment := "";
    }

    /** Classifies one line, updating the pending comment and the collection. */
    method ParseLine(rawLine: string, pairs: map<string, string>, file: string, lineNumber: int) returns (r: LineResult)
      requires LineParsable(rawLine, pairs)
      modifies this
      ensures (ParserState(collection, comment), r) == ParseLineSpec(ParserState(old(collection), old(comment)), rawLine, pairs, file, lineNumber)
    {
      var line := Trim(rawLine);
      if HasPrefix(line, "// MARK:") || HasPrefix(line, "/*") {
        return Unrecognized(rawLine);
      } else if HasPrefix(line, "//") {
        var commentText := if HasPrefix(line, "///") then line[3..] else line[2..];
        AddCommentLine(commentText);
        return Comment(Trim(commentText));
      } else if HasPrefix(line, "\"") {
        var keyString := KeyOf(line).value;
        var value := ValueFor(pairs, keyString);
        var placeholders := PlaceholdersFromFormat(value.GetOr(""));
        var entry := StringsEntry(keyString, comment, value, file, lineNumber, placeholders.value);
        comment := "";
        StoreEntry(entry);
        return Entry(entry);
      } else {
        return Unrecognized(rawLine);
      }
    }

    method AddCommentLine(text: string)
      modifies this
      ensures comment == AppendComment(old(comment), text) && collection == old(collection)
    {
      if comment != "" {
        comment := comment + "\n";
      }
      comment := comment + Trim(text);
    }

    /** Parses the text of a strings file into `collection`, line by line. */
    method Parse(input: string, pairs: map<string, string>, file: string)
      requires AllParsable(FileLines(input), pairs)
      modifies this
      ensures collection == ParseLines(ParserState(old(collection), ""), FileLines(input), pairs, file).collection
      ensures comment == ""
    {
      comment := "";
      var lines := FileLines(input);
      ghost var start := ParserState(collection, "");
      for lineNumber := 0 to |lines|
        invariant ParserState(collection, comment) == ParseLines(start, lines[..lineNumber], pairs, file)
      {
        assert lines[..lineNumber + 1][..lineNumber] == lines[..lineNumber];
        var _ := ParseLine(lines[lineNumber], pairs, file, lineNumber);
      }
      assert lines[..|lines|] == lines;
      comment := "";
    }

    method StoreEntry(entry: StringsEntry)
      modifies this
      ensures collection == Store(old(collection), entry) && comment == old(comment)
    {
      var node := CollectionForKey(collection, entry.key);
      collection := SetCollectionForKey(collection, entry.key, node.(keys := node.keys + [entry]));
    }
  }

  /** The static `parse(inputPath:)`: a fresh parser over the file's text. */
  method ParseStringsFile(input: string, pairs: map<string, string>, file: string) returns (c: StringsCollection)
    requires AllParsable(FileLines(input), pairs)
    ensures c == ParseFile(input, pairs, file)
  {
    var parser := new StringsParser();
    parser.Parse(input, pairs, file);
    c := parser.collection;
  }
}
