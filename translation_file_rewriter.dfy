/**
 * `rewriteTranslationFiles`: the first strings file of a list is the primary
 * translation, the others are rewritten to follow it line by line. Keys a
 * secondary file has and the primary lacks are reported and stop the rewrite;
 * otherwise every line of the primary becomes one line of each secondary,
 * with the secondary's own translation where it has one and an Xcode
 * placeholder (`<#…#>`) where it does not.
 *
 * Reading and writing the files and decoding their key/value dictionaries are
 * outside the model: each file comes in as its path, its text and its decoded
 * pairs, and the outcome carries the diagnostics or the new texts.
 */
module TranslationRewriting {
  import opened Wrappers
  import opened Text
  import opened StringsModel
  import opened SwiftCodeWriting

  /** A strings file as read from disk: its path, its text and its decoded key/value pairs. */
  datatype StringsFileInput = StringsFileInput(path: string, text: string, pairs: map<string, string>)

  /** The source's `File` tuple: a secondary's path, the text written for it so far and its parsed strings. */
  datatype File = File(path: string, output: string, strings: StringsCollection)

  /** One `error:` line: the file, the 1-based line and the key it is about. */
  datatype Diagnostic = Diagnostic(path: string, line: int, key: string)

  /** Either the rewrite stopped with diagnostics, or every secondary got its new text. */
  datatype Outcome = Aborted(reports: seq<Diagnostic>) | Rewritten(files: seq<File>)

  // The orphan-key check

  /** What parsing a file demands: every entry line has a key and consistent placeholders. */
  predicate Readable(input: StringsFileInput) {
    AllParsable(FileLines(input.text), input.pairs)
  }

  /** The keys of a secondary file that the primary file does not have. */
  function Orphans(input: StringsFileInput, primaryPairs: map<string, string>): (r: set<string>)
    ensures forall k :: k in r <==> k in input.pairs && k !in primaryPairs
  {
    input.pairs.Keys - primaryPairs.Keys
  }

  /** Every orphan key was also found by the line parser; the source stops with
      `fatalError` on one that was not. */
  predicate OrphansFound(strings: StringsCollection, orphans: set<string>) {
    forall k :: k in orphans ==> Lookup(strings, k).Some?
  }

  /** The report for an orphan key: the line after the one its entry was parsed
      from (the parser numbers lines from 0). */
  function Report(path: string, strings: StringsCollection, key: string): Diagnostic
    requires Lookup(strings, key).Some?
  {
    Diagnostic(path, Lookup(strings, key).value.line + 1, key)
  }

  /** The reports for one secondary file. */
  function OrphanReports(file: File, orphans: set<string>): set<Diagnostic>
    requires OrphansFound(file.strings, orphans)
  {
    set k | k in orphans :: Report(file.path, file.strings, k)
  }

  /** Each orphan key gets exactly one report, on the line after its entry's, and nothing else is reported. */
  lemma OrphanReportsExact(file: File, orphans: set<string>, d: Diagnostic)
    requires OrphansFound(file.strings, orphans)
    ensures d in OrphanReports(file, orphans) <==>
      && d.key in orphans && d.path == file.path
      && d.line == Lookup(file.strings, d.key).value.line + 1
  {
    if d.key in orphans && d.path == file.path && d.line == Lookup(file.strings, d.key).value.line + 1 {
      assert d == Report(file.path, file.strings, d.key);
    }
  }

  /** The secondary files as parsed, before anything is written to them. */
  function InitialFiles(inputs: seq<StringsFileInput>): (r: seq<File>)
    requires forall i :: 0 <= i < |inputs| ==> Readable(inputs[i])
    ensures |r| == |inputs|
    ensures forall i :: 0 <= i < |inputs| ==> r[i].path == inputs[i].path && r[i].output == ""
  {
    seq(|inputs|, i requires 0 <= i < |inputs| && Readable(inputs[i]) =>
      File(inputs[i].path, "", ParseFile(inputs[i].text, inputs[i].pairs, inputs[i].path)))
  }

  /** The orphan keys of each secondary file. */
  function OrphanSets(inputs: seq<StringsFileInput>, primaryPairs: map<string, string>): (r: seq<set<string>>)
    ensures |r| == |inputs| && forall i :: 0 <= i < |inputs| ==> r[i] == Orphans(inputs[i], primaryPairs)
  {
    seq(|inputs|, i requires 0 <= i < |inputs| => Orphans(inputs[i], primaryPairs))
  }

  /** Every file's orphans were found by its parser. */
  predicate AllFound(files: seq<File>, orphans: seq<set<string>>) {
    |files| == |orphans| && forall i :: 0 <= i < |files| ==> OrphansFound(files[i].strings, orphans[i])
  }

  /** The reports for all secondary files. */
  function AllOrphanReports(files: seq<File>, orphans: seq<set<string>>): set<Diagnostic>
    requires AllFound(files, orphans)
    decreases |files|
  {
    if |files| == 0 then {}
    else
      var n := |files| - 1;
      AllOrphanReports(files[..n], orphans[..n]) + OrphanReports(files[n], orphans[n])
  }

  /** Some secondary file has a key the primary lacks. */
  predicate AnyOrphan(orphans: seq<set<string>>) {
    exists i :: 0 <= i < |orphans| && orphans[i] != {}
  }

  /** There is something to report exactly when some secondary has an orphan key. */
  lemma {:induction false} ReportsIffOrphan(files: seq<File>, orphans: seq<set<string>>)
    requires AllFound(files, orphans)
    ensures AllOrphanReports(files, orphans) != {} <==> AnyOrphan(orphans)
    decreases |files|
  {
    if |files| > 0 {
      var n := |files| - 1;
      ReportsIffOrphan(files[..n], orphans[..n]);
      CheckStep(files, orphans, n, AnyOrphan(orphans[..n]), orphans[n] != {});
      assert files[..n + 1] == files && orphans[..n + 1] == orphans;
      if orphans[n] != {} {
        var k :| k in orphans[n];
        assert Report(files[n].path, files[n].strings, k) in OrphanReports(files[n], orphans[n]);
      }
    }
  }

  /** One more secondary file checked: the error flag and the reports grow with it. */
  lemma CheckStep(files: seq<File>, orphans: seq<set<string>>, i: nat, error: bool, fileError: bool)
    requires i < |files| && AllFound(files, orphans)
    requires error <==> AnyOrphan(orphans[..i])
    requires fileError <==> orphans[i] != {}
    ensures AllFound(files[..i + 1], orphans[..i + 1]) && AllFound(files[..i], orphans[..i])
    ensures (error || fileError) <==> AnyOrphan(orphans[..i + 1])
    ensures AllOrphanReports(files[..i + 1], orphans[..i + 1]) == AllOrphanReports(files[..i], orphans[..i]) + OrphanReports(files[i], orphans[i])
  {
    PrefixesFound(files, orphans, i);
    AnyOrphanSnoc(orphans, i);
    assert files[..i + 1][..i] == files[..i];
    assert orphans[..i + 1][..i] == orphans[..i];
  }

  lemma PrefixesFound(files: seq<File>, orphans: seq<set<string>>, i: nat)
    requires i < |files| && AllFound(files, orphans)
    ensures AllFound(files[..i + 1], orphans[..i + 1]) && AllFound(files[..i], orphans[..i])
  {
  }

  /** Some of the first `i + 1` files has an orphan exactly when one of the first `i` or file `i` has. */
  lemma AnyOrphanSnoc(orphans: seq<set<string>>, i: nat)
    requires i < |orphans|
    ensures AnyOrphan(orphans[..i + 1]) <==> AnyOrphan(orphans[..i]) || orphans[i] != {}
  {
    if AnyOrphan(orphans[..i]) {
      var j :| 0 <= j < i && orphans[..i][j] != {};
      assert orphans[..i + 1][j] != {};
    }
    if orphans[i] != {} {
      assert orphans[..i + 1][i] != {};
    }
    if AnyOrphan(orphans[..i + 1]) && orphans[i] == {} {
      var j :| 0 <= j < i + 1 && orphans[..i + 1][j] != {};
      assert orphans[..i][j] != {};
    }
  }

  /** The `map` over the secondary paths: parses one file and reports its keys
      that the primary lacks. */
  method CheckFile(input: StringsFileInput, primaryPairs: map<string, string>) returns (file: File, reports: seq<Diagnostic>, error: bool)
    requires Readable(input) && OrphansFound(ParseFile(input.text, input.pairs, input.path), Orphans(input, primaryPairs))
    ensures file == File(input.path, "", ParseFile(input.text, input.pairs, input.path))
    ensures error <==> Orphans(input, primaryPairs) != {}
    ensures forall d :: d in reports <==> d in OrphanReports(file, Orphans(input, primaryPairs))
  {
    var strings := ParseStringsFile(input.text, input.pairs, input.path);
    file := File(input.path, "", strings);
    reports, error := ReportOrphans(input, file, primaryPairs);
  }

  /** The loop over a secondary file's keys, in the dictionary's (unspecified)
      key order: every key the primary lacks sets the error flag and is
      reported on the line after its entry's. */
  method ReportOrphans(input: StringsFileInput, file: File, primaryPairs: map<string, string>) returns (reports: seq<Diagnostic>, error: bool)
    requires file.path == input.path && OrphansFound(file.strings, Orphans(input, primaryPairs))
    ensures error <==> Orphans(input, primaryPairs) != {}
    ensures forall d :: d in reports <==> d in OrphanReports(file, Orphans(input, primaryPairs))
  {
    ghost var orphans := Orphans(input, primaryPairs);
    reports := [];
    error := false;
    var remaining := input.pairs.Keys;
    ghost var done: set<string> := {};
    ghost var reported: set<Diagnostic> := {};
    while remaining != {}
      invariant remaining <= input.pairs.Keys
      invariant done == orphans - remaining
      invariant error <==> done != {}
      invariant reported == OrphanReports(file, done)
      invariant forall d :: d in reports <==> d in reported
      decreases remaining
    {
      var key :| key in remaining;
      OrphanStep(input, primaryPairs, remaining, key);
      if key !in primaryPairs {
        error := true;
        var entry := Lookup(file.strings, key).value;
        ghost var d := Diagnostic(input.path, entry.line + 1, key);
        ReportsGrow(file, done, key, d);
        SameMembersSnoc(reports, reported, d);
        reports := reports + [Diagnostic(input.path, entry.line + 1, key)];
        reported := reported + {d};
        done := done + {key};
      }
      remaining := remaining - {key};
    }
  }

  /** One key of the loop above: the orphans seen so far grow by the key exactly
      when the primary lacks it. */
  lemma OrphanStep(input: StringsFileInput, primaryPairs: map<string, string>, remaining: set<string>, key: string)
    requires remaining <= input.pairs.Keys && key in remaining
    ensures key !in primaryPairs ==> Orphans(input, primaryPairs) - (remaining - {key}) == (Orphans(input, primaryPairs) - remaining) + {key}
    ensures key in primaryPairs ==> Orphans(input, primaryPairs) - (remaining - {key}) == Orphans(input, primaryPairs) - remaining
  {
  }

  lemma SameMembersSnoc(reports: seq<Diagnostic>, reported: set<Diagnostic>, d: Diagnostic)
    requires forall x :: x in reports <==> x in reported
    ensures forall x :: x in reports + [d] <==> x in reported + {d}
  {
  }

  lemma ReportsGrow(file: File, done: set<string>, key: string, d: Diagnostic)
    requires OrphansFound(file.strings, done + {key}) && d == Report(file.path, file.strings, key)
    ensures OrphanReports(file, done + {key}) == OrphanReports(file, done) + {d}
  {
  }

  // The line-by-line rewrite

  /** The source's local function `l`: a newline before the piece unless the buffer is still empty. */
  function AppendPiece(output: string, piece: string): string {
    if output == "" then piece else output + "\n" + piece
  }

  /** The line a secondary file gets for one classified line of the primary file. */
  function Piece(strings: StringsCollection, r: LineResult): string {
    match r
    case Unrecognized(raw) => raw
    case Comment(text) => "/// " + text
    case Entry(e) =>
      match Lookup(strings, e.key)
      case Some(translated) => "\"" + e.key + "\" = " + MakeStringLiteral(translated.value.GetOr("")) + ";"
      case None => "\"" + e.key + "\" = \"<#" + e.value.GetOr("Translated text") + "#>\";"
  }

  /** Passing one primary line to a secondary file: only its output grows. */
  function Appended(file: File, r: LineResult): File {
    file.(output := AppendPiece(file.output, Piece(file.strings, r)))
  }

  /** The `nonPrimaryFiles.map` for one primary line. */
  function FanOut(files: seq<File>, r: LineResult): (out: seq<File>)
    ensures |out| == |files|
    ensures forall i :: 0 <= i < |files| ==>
      && out[i].path == files[i].path && out[i].strings == files[i].strings
      && out[i].output == AppendPiece(files[i].output, Piece(files[i].strings, r))
  {
    seq(|files|, i requires 0 <= i < |files| => Appended(files[i], r))
  }

  /** What the primary's parser returns for each of `lines`, numbered from 0. */
  function LineResults(st: ParserState, lines: seq<string>, pairs: map<string, string>, file: string): (r: seq<LineResult>)
    requires AllParsable(lines, pairs)
    ensures |r| == |lines|
    decreases |lines|
  {
    if |lines| == 0 then []
    else
      var n := |lines| - 1;
      LineResults(st, lines[..n], pairs, file) + [ParseLineSpec(ParseLines(st, lines[..n], pairs, file), lines[n], pairs, file, n).1]
  }

  /** The text a secondary with parsed strings `strings` gets from the classified primary lines. */
  function RewrittenText(strings: StringsCollection, results: seq<LineResult>): string
    decreases |results|
  {
    if |results| == 0 then ""
    else AppendPiece(RewrittenText(strings, results[..|results| - 1]), Piece(strings, results[|results| - 1]))
  }

  /** The pieces for the classified primary lines, one per line. */
  function Pieces(strings: StringsCollection, results: seq<LineResult>): (r: seq<string>)
    ensures |r| == |results| && forall i :: 0 <= i < |results| ==> r[i] == Piece(strings, results[i])
  {
    seq(|results|, i requires 0 <= i < |results| => Piece(strings, results[i]))
  }

  /** The pieces from the first non-empty one on. */
  function DropLeadingEmpty(pieces: seq<string>): (r: seq<string>)
    ensures r == [] || r[0] != ""
    decreases |pieces|
  {
    if |pieces| == 0 then []
    else if pieces[0] == "" then DropLeadingEmpty(pieces[1..])
    else pieces
  }

  lemma {:induction false} DropLeadingEmptySnoc(pieces: seq<string>, x: string)
    ensures DropLeadingEmpty(pieces + [x]) ==
      if DropLeadingEmpty(pieces) == [] then (if x == "" then [] else [x]) else DropLeadingEmpty(pieces) + [x]
    decreases |pieces|
  {
    if |pieces| == 0 {
      assert pieces + [x] == [x];
      assert [x][1..] == [];
    } else {
      assert (pieces + [x])[1..] == pieces[1..] + [x];
      if pieces[0] == "" {
        DropLeadingEmptySnoc(pieces[1..], x);
      }
    }
  }

  lemma {:induction false} JoinSnoc(parts: seq<string>, x: string)
    requires |parts| >= 1
    ensures Join(parts + [x], '\n') == Join(parts, '\n') + "\n" + x
    decreases |parts|
  {
    if |parts| == 1 {
      assert (parts + [x])[1..] == [x];
    } else {
      JoinSnoc(parts[1..], x);
      assert (parts + [x])[1..] == parts[1..] + [x];
    }
  }

  lemma PiecesSnoc(strings: StringsCollection, results: seq<LineResult>)
    requires |results| > 0
    ensures Pieces(strings, results) == Pieces(strings, results[..|results| - 1]) + [Piece(strings, results[|results| - 1])]
  {
  }

  /** A join that starts with a non-empty part is not empty. */
  lemma {:induction false} JoinStartsNonEmpty(parts: seq<string>)
    requires parts != [] && parts[0] != ""
    ensures Join(parts, '\n') != ""
  {
    if |parts| > 1 {
      assert Join(parts, '\n') == parts[0] + ['\n'] + Join(parts[1..], '\n');
    }
  }

  /** The rewritten text is the pieces joined by newlines, once the leading
      empty pieces are dropped: the empty buffer swallows them. */
  lemma {:induction false} RewrittenTextJoins(strings: StringsCollection, results: seq<LineResult>)
    ensures RewrittenText(strings, results) == Join(DropLeadingEmpty(Pieces(strings, results)), '\n')
    ensures RewrittenText(strings, results) == "" <==> DropLeadingEmpty(Pieces(strings, results)) == []
    decreases |results|
  {
    if |results| > 0 {
      var n := |results| - 1;
      RewrittenTextJoins(strings, results[..n]);
      PiecesSnoc(strings, results);
      AppendJoins(RewrittenText(strings, results[..n]), Pieces(strings, results[..n]), Piece(strings, results[n]));
    }
  }

  /** Appending one piece to a buffer that holds the joined pieces so far
      holds the joined pieces with that one added. */
  lemma AppendJoins(text: string, pieces: seq<string>, x: string)
    requires text == Join(DropLeadingEmpty(pieces), '\n')
    requires text == "" <==> DropLeadingEmpty(pieces) == []
    ensures AppendPiece(text, x) == Join(DropLeadingEmpty(pieces + [x]), '\n')
    ensures AppendPiece(text, x) == "" <==> DropLeadingEmpty(pieces + [x]) == []
  {
    DropLeadingEmptySnoc(pieces, x);
    var d := DropLeadingEmpty(pieces);
    if d != [] {
      JoinSnoc(d, x);
      JoinStartsNonEmpty(d);
    }
  }

  /** When the primary's first piece is not empty and no piece spans lines, the
      rewritten secondary has exactly one line per primary line, in order. */
  lemma OneLinePerPrimaryLine(strings: StringsCollection, results: seq<LineResult>)
    requires |results| >= 1 && Piece(strings, results[0]) != ""
    requires forall i :: 0 <= i < |results| ==> '\n' !in Piece(strings, results[i])
    ensures SplitKeeping(RewrittenText(strings, results), '\n') == Pieces(strings, results)
  {
    var ps := Pieces(strings, results);
    RewrittenTextJoins(strings, results);
    assert DropLeadingEmpty(ps) == ps;
    SplitKeepingJoin(ps, '\n');
  }

  /** A key the secondary has keeps the secondary's own translation, written as
      a Swift string literal that reads back as that translation. */
  lemma TranslatedEntryKept(strings: StringsCollection, e: StringsEntry)
    requires Lookup(strings, e.key).Some?
    requires '\\' !in Lookup(strings, e.key).value.value.GetOr("")
    ensures var piece := Piece(strings, Entry(e));
      var prefix := "\"" + e.key + "\" = ";
      && HasPrefix(piece, prefix) && piece[|piece| - 1] == ';'
      && Unescape(piece[|prefix| + 1..|piece| - 2]) == Lookup(strings, e.key).value.value.GetOr("")
  {
    var v := Lookup(strings, e.key).value.value.GetOr("");
    var prefix := "\"" + e.key + "\" = ";
    var lit := MakeStringLiteral(v);
    var piece := prefix + lit + ";";
    assert Piece(strings, Entry(e)) == piece;
    StringLiteralShape(v);
    StringLiteralRoundTrip(v);
    assert piece[|prefix| + 1..|piece| - 2] == lit[1..|lit| - 1];
  }

  /** A key the secondary lacks becomes a placeholder around the primary's value,
      or around "Translated text" when the primary has none. */
  lemma MissingEntryPlaceholder(strings: StringsCollection, e: StringsEntry)
    requires Lookup(strings, e.key).None?
    ensures var piece := Piece(strings, Entry(e));
      var prefix := "\"" + e.key + "\" = \"<#";
      && HasPrefix(piece, prefix)
      && piece[|prefix|..] == e.value.GetOr("Translated text") + "#>\";"
  {
    var prefix := "\"" + e.key + "\" = \"<#";
    var piece := Piece(strings, Entry(e));
    assert piece == prefix + (e.value.GetOr("Translated text") + "#>\";");
  }

  /** Comment lines come back as `///` comments carrying the parsed comment text,
      and unrecognized lines come back untouched. */
  lemma CommentAndUnrecognizedPieces(strings: StringsCollection, text: string, raw: string)
    ensures HasPrefix(Piece(strings, Comment(text)), "/// ") && Piece(strings, Comment(text))[4..] == text
    ensures Piece(strings, Unrecognized(raw)) == raw
  {
  }

  /** The fan-out with every primary line classified up to `results`. */
  lemma {:induction false} FanOutStep(files: seq<File>, start: seq<File>, results: seq<LineResult>, r: LineResult)
    requires |files| == |start|
    requires forall i :: 0 <= i < |start| ==> files[i] == start[i].(output := RewrittenText(start[i].strings, results))
    requires forall i :: 0 <= i < |start| ==> start[i].output == ""
    ensures forall i :: 0 <= i < |start| ==> FanOut(files, r)[i] == start[i].(output := RewrittenText(start[i].strings, results + [r]))
  {
    forall i | 0 <= i < |start|
      ensures FanOut(files, r)[i] == start[i].(output := RewrittenText(start[i].strings, results + [r]))
    {
      assert (results + [r])[..|results|] == results;
    }
  }

  /** The primary's classified lines, extended by one line. */
  lemma LineResultsStep(lines: seq<string>, n: nat, pairs: map<string, string>, file: string, st: ParserState, r: LineResult, st': ParserState)
    requires n < |lines| && AllParsable(lines, pairs)
    requires (st', r) == ParseLineSpec(ParseLines(ParserState(EmptyCollection, ""), lines[..n], pairs, file), lines[n], pairs, file, n)
    ensures AllParsable(lines[..n + 1], pairs)
    ensures LineResults(ParserState(EmptyCollection, ""), lines[..n + 1], pairs, file) == LineResults(ParserState(EmptyCollection, ""), lines[..n], pairs, file) + [r]
    ensures ParseLines(ParserState(EmptyCollection, ""), lines[..n + 1], pairs, file) == st'
  {
    assert lines[..n + 1][..n] == lines[..n];
  }

  /** The rewrite: the first file is the primary (the source force-unwraps
      `paths.first`), the others are checked for orphan keys and, if none has
      one, rewritten line by line after the primary. */
  method RewriteTranslationFiles(inputs: seq<StringsFileInput>) returns (outcome: Outcome)
    requires |inputs| >= 1
    requires Readable(inputs[0])
    requires forall i :: 1 <= i < |inputs| ==> Readable(inputs[i])
    requires AllFound(InitialFiles(inputs[1..]), OrphanSets(inputs[1..], inputs[0].pairs))
    ensures outcome.Aborted? <==> AnyOrphan(OrphanSets(inputs[1..], inputs[0].pairs))
    ensures outcome.Aborted? ==> forall d :: d in outcome.reports <==>
      d in AllOrphanReports(InitialFiles(inputs[1..]), OrphanSets(inputs[1..], inputs[0].pairs))
    ensures outcome.Rewritten? ==>
      var results := LineResults(ParserState(EmptyCollection, ""), FileLines(inputs[0].text), inputs[0].pairs, inputs[0].path);
      && |outcome.files| == |inputs| - 1
      && forall i :: 0 <= i < |outcome.files| ==>
        outcome.files[i] == InitialFiles(inputs[1..])[i].(output := RewrittenText(InitialFiles(inputs[1..])[i].strings, results))
  {
    var primary := inputs[0];
    var secondaries := inputs[1..];
    ghost var files := InitialFiles(secondaries);
    ghost var orphans := OrphanSets(secondaries, primary.pairs);
    var error := false;
    var nonPrimaryFiles: seq<File> := [];
    var reports: seq<Diagnostic> := [];
    for i := 0 to |secondaries|
      invariant nonPrimaryFiles == files[..i]
      invariant AllFound(files[..i], orphans[..i])
      invariant error <==> AnyOrphan(orphans[..i])
      invariant forall d :: d in reports <==> d in AllOrphanReports(files[..i], orphans[..i])
    {
      assert files[i] == File(secondaries[i].path, "", ParseFile(secondaries[i].text, secondaries[i].pairs, secondaries[i].path));
      var file, fileReports, fileError := CheckFile(secondaries[i], primary.pairs);
      CheckStep(files, orphans, i, error, fileError);
      error := error || fileError;
      nonPrimaryFiles := nonPrimaryFiles + [file];
      reports := reports + fileReports;
    }
    assert files[..|secondaries|] == files && orphans[..|secondaries|] == orphans;
    if error {
      // Nothing is written when there was an error.
      return Aborted(reports);
    }
    var primaryParser := new StringsParser();
    var lines := FileLines(primary.text);
    ghost var init := ParserState(EmptyCollection, "");
    ghost var results: seq<LineResult> := [];
    for lineNumber := 0 to |lines|
      invariant |nonPrimaryFiles| == |files|
      invariant ParserState(primaryParser.collection, primaryParser.comment) == ParseLines(init, lines[..lineNumber], primary.pairs, primary.path)
      invariant results == LineResults(init, lines[..lineNumber], primary.pairs, primary.path)
      invariant forall i :: 0 <= i < |files| ==> nonPrimaryFiles[i] == files[i].(output := RewrittenText(files[i].strings, results))
    {
      var lineResult := primaryParser.ParseLine(lines[lineNumber], primary.pairs, primary.path, lineNumber);
      LineResultsStep(lines, lineNumber, primary.pairs, primary.path, init, lineResult, ParserState(primaryParser.collection, primaryParser.comment));
      FanOutStep(nonPrimaryFiles, files, results, lineResult);
      nonPrimaryFiles := FanOut(nonPrimaryFiles, lineResult);
      results := results + [lineResult];
    }
    assert lines[..|lines|] == lines;
    return Rewritten(nonPrimaryFiles);
  }
}
