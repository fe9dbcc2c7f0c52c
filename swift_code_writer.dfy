/**
 * The append-only pretty printer every generator writes through: an output
 * text and an indentation level of four spaces per step. The generators'
 * output is specified as a sequence of lines, each with its level, and
 * `Render` says what text the writer holds after appending them.
 */
module SwiftCodeWriting {
  import opened Text

  /** One line of generated code: its indentation level and its text. */
  datatype Line = Line(level: nat, text: string)

  function Indentation(level: nat): string {
    Repeat(' ', 4 * level)
  }

  /** `output` after one more line: a newline goes between lines, never before the first. */
  function AppendLine(output: string, line: string): string {
    output + (if output == "" then "" else "\n") + line
  }

  /** Appending keeps the old output as a prefix and adds the line at the end. */
  lemma AppendLineExtends(output: string, line: string)
    ensures HasPrefix(AppendLine(output, line), output)
    ensures var r := AppendLine(output, line); |r| >= |line| && r[|r| - |line|..] == line
    ensures output != "" ==> AppendLine(output, line) == output + "\n" + line
  {
    var r := AppendLine(output, line);
    assert r[..|output|] == output;
  }

  function RenderLine(l: Line): string {
    Indentation(l.level) + l.text
  }

  /** The output after appending `lines`, in order, to `output`. */
  function Render(output: string, lines: seq<Line>): string
    decreases |lines|
  {
    if |lines| == 0 then output
    else AppendLine(Render(output, lines[..|lines| - 1]), RenderLine(lines[|lines| - 1]))
  }

  /** Appending two runs of lines is appending their concatenation. */
  lemma {:induction false} RenderConcat(output: string, a: seq<Line>, b: seq<Line>)
    ensures Render(output, a + b) == Render(Render(output, a), b)
    decreases |b|
  {
    if |b| == 0 {
      assert a + b == a;
    } else {
      RenderConcat(output, a, b[..|b| - 1]);
      assert (a + b)[..|a + b| - 1] == a + b[..|b| - 1];
    }
  }

  /** The output only grows. */
  lemma {:induction false} RenderGrows(output: string, lines: seq<Line>)
    ensures HasPrefix(Render(output, lines), output)
    decreases |lines|
  {
    if |lines| > 0 {
      var before := Render(output, lines[..|lines| - 1]);
      RenderGrows(output, lines[..|lines| - 1]);
      AppendLineExtends(before, RenderLine(lines[|lines| - 1]));
    }
  }

  function RenderedLines(lines: seq<Line>): seq<string> {
    seq(|lines|, i requires 0 <= i < |lines| => RenderLine(lines[i]))
  }

  /** Written after non-empty output, the lines are the rendered lines each behind a newline. */
  lemma {:induction false} RenderAfterText(output: string, lines: seq<Line>)
    requires output != ""
    ensures Render(output, lines) == JoinWith([output] + RenderedLines(lines), "\n")
    decreases |lines|
  {
    if |lines| == 0 {
    } else {
      var init := lines[..|lines| - 1];
      RenderAfterText(output, init);
      RenderGrows(output, init);
      assert RenderedLines(lines) == RenderedLines(init) + [RenderLine(lines[|lines| - 1])];
      assert [output] + RenderedLines(lines) == ([output] + RenderedLines(init)) + [RenderLine(lines[|lines| - 1])];
      JoinWithSnoc([output] + RenderedLines(init), RenderLine(lines[|lines| - 1]), "\n");
    }
  }

  /** A block: `header {`, the body one level deeper, `}` at the header's level. */
  function Block(level: nat, header: string, body: seq<Line>): seq<Line> {
    [Line(level, header + " {")] + body + [Line(level, "}")]
  }

  /** Writing a block is writing its header line, its body and its closing line in turn. */
  lemma RenderBlock(output: string, level: nat, header: string, body: seq<Line>)
    ensures Render(output, Block(level, header, body))
         == Render(Render(Render(output, [Line(level, header + " {")]), body), [Line(level, "}")])
  {
    RenderConcat(output, [Line(level, header + " {")], body);
    RenderConcat(output, [Line(level, header + " {")] + body, [Line(level, "}")]);
  }

  // Steps of a writer method, each stated on the outputs it passes through.

  lemma RenderStep(start: string, a: seq<Line>, b: seq<Line>, mid: string, out: string)
    requires mid == Render(start, a) && out == Render(mid, b)
    ensures out == Render(start, a + b)
  {
    RenderConcat(start, a, b);
  }

  /** Writing a header line, a body one level deeper and a closing line is writing the block. */
  lemma BlockSteps(start: string, level: nat, header: string, body: seq<Line>, o1: string, o2: string, out: string)
    requires o1 == Render(start, [Line(level, header + " {")]) && o2 == Render(o1, body) && out == Render(o2, [Line(level, "}")])
    ensures out == Render(start, Block(level, header, body))
  {
    RenderBlock(start, level, header, body);
  }

  /** Writing two lines one after the other is writing both. */
  lemma RenderTwo(start: string, a: Line, b: Line, o1: string, out: string)
    requires o1 == Render(start, [a]) && out == Render(o1, [b])
    ensures out == Render(start, [a, b])
  {
    RenderConcat(start, [a], [b]);
    assert [a] + [b] == [a, b];
  }

  /** Writing three lines one after the other is writing all three. */
  lemma RenderThree(start: string, a: Line, b: Line, c: Line, o1: string, o2: string, out: string)
    requires o1 == Render(start, [a]) && o2 == Render(o1, [b]) && out == Render(o2, [c])
    ensures out == Render(start, [a, b, c])
  {
    RenderTwo(start, a, b, o1, o2);
    RenderConcat(start, [a, b], [c]);
    assert [a, b] + [c] == [a, b, c];
  }

  lemma RenderBlockOfTwoAfter(start: string, before: seq<Line>, level: nat, header: string, first: Line, second: Line,
                              o1: string, o2: string, o3: string, o4: string, out: string)
    requires o1 == Render(start, before) && o2 == Render(o1, [Line(level, header + " {")])
    requires o3 == Render(o2, [first]) && o4 == Render(o3, [second]) && out == Render(o4, [Line(level, "}")])
    ensures out == Render(start, before + Block(level, header, [first, second]))
  {
    RenderConcat(o2, [first], [second]);
    assert [first] + [second] == [first, second];
    RenderBlock(o1, level, header, [first, second]);
    RenderConcat(start, before, Block(level, header, [first, second]));
  }

  /** An unindented line is appended as its bare text. */
  lemma RenderUnindented(output: string, text: string)
    ensures Render(output, [Line(0, text)]) == AppendLine(output, text)
  {
    assert [Line(0, text)][..0] == [];
    assert Indentation(0) == "";
    assert RenderLine(Line(0, text)) == text;
  }

  /** Written into an empty writer, lines whose first one is not blank are
      the rendered lines joined by newlines. */
  lemma {:induction false} RenderFromEmpty(lines: seq<Line>)
    requires |lines| > 0 && RenderLine(lines[0]) != ""
    ensures Render("", lines) == JoinWith(RenderedLines(lines), "\n")
  {
    var first := RenderLine(lines[0]);
    var rest := lines[1..];
    assert [lines[0]][..0] == [];
    assert Render("", [lines[0]]) == AppendLine("", first) == first;
    assert lines == [lines[0]] + rest;
    RenderConcat("", [lines[0]], rest);
    assert Render("", lines) == Render(first, rest);
    RenderAfterText(first, rest);
    assert RenderedLines(lines) == [first] + RenderedLines(rest);
  }

  /** A file with one more unindented line in front is that line, a newline and the file. */
  lemma {:induction false} RenderWithLeadingLine(first: string, lines: seq<Line>)
    requires first != "" && |lines| > 0 && RenderLine(lines[0]) != ""
    ensures Render("", [Line(0, first)] + lines) == first + "\n" + Render("", lines)
  {
    RenderConcat("", [Line(0, first)], lines);
    RenderUnindented("", first);
    assert Render("", [Line(0, first)]) == first;
    RenderAfterText(first, lines);
    RenderFromEmpty(lines);
    var rendered := RenderedLines(lines);
    assert |rendered| >= 1;
    assert ([first] + rendered)[1..] == rendered;
    assert JoinWith([first] + rendered, "\n") == first + "\n" + JoinWith(rendered, "\n");
  }

  /** Lines written after a non-empty text keep it in front, and an
      unindented closing brace after them ends the output with a newline and the brace. */
  lemma RenderClosed(o: string, body: seq<Line>)
    requires o != ""
    ensures var out := Render(o, body + [Line(0, "}")]);
      HasPrefix(out, o) && |out| >= 2 && out[|out| - 2..] == "\n}"
  {
    var lines := body + [Line(0, "}")];
    assert lines[..|lines| - 1] == body;
    RenderGrows(o, body);
    var mid := Render(o, body);
    assert Indentation(0) == "";
    assert RenderLine(Line(0, "}")) == "}";
    assert mid[..|o|] == o;
    AppendLineExtends(mid, "}");
    RenderGrows(o, lines);
  }

  /** An unindented block written after `start`: the output begins with
      `start` and the block's header line, and ends with the closing brace. */
  lemma Framed(start: string, header: string, body: seq<Line>)
    ensures var out := Render(start, Block(0, header, body));
      && HasPrefix(out, AppendLine(start, header + " {"))
      && |out| >= 2 && out[|out| - 2..] == "\n}"
  {
    var open := Line(0, header + " {");
    var o1 := AppendLine(start, header + " {");
    RenderUnindented(start, header + " {");
    assert Block(0, header, body) == [open] + (body + [Line(0, "}")]);
    RenderConcat(start, [open], body + [Line(0, "}")]);
    AppendLineExtends(start, header + " {");
    RenderClosed(o1, body);
  }

  /** A file made of one unindented block starts with its header and ends with its closing brace. */
  lemma BlockFrame(header: string, body: seq<Line>)
    ensures HasPrefix(Render("", Block(0, header, body)), header + " {")
    ensures var code := Render("", Block(0, header, body)); |code| >= 2 && code[|code| - 2..] == "\n}"
  {
    Framed("", header, body);
    assert AppendLine("", header + " {") == header + " {";
  }

  /** A file made of one unindented line and then an unindented block starts
      with that line and the block's header, and ends with the closing brace. */
  lemma RenderFrame(first: string, header: string, body: seq<Line>)
    requires first != ""
    ensures HasPrefix(Render("", [Line(0, first)] + Block(0, header, body)), first + "\n" + header + " {")
    ensures var code := Render("", [Line(0, first)] + Block(0, header, body)); |code| >= 2 && code[|code| - 2..] == "\n}"
  {
    RenderConcat("", [Line(0, first)], Block(0, header, body));
    RenderUnindented("", first);
    assert Render("", [Line(0, first)]) == first;
    Framed(first, header, body);
  }

  /** A file made of one unindented line, a blank line and then an unindented
      block starts with that line, an empty line and the block's header, and
      ends with the closing brace. */
  lemma RenderFrameAfterBlank(first: string, header: string, body: seq<Line>)
    requires first != ""
    ensures HasPrefix(Render("", [Line(0, first), Line(0, "")] + Block(0, header, body)), first + "\n\n" + header + " {")
    ensures var code := Render("", [Line(0, first), Line(0, "")] + Block(0, header, body)); |code| >= 2 && code[|code| - 2..] == "\n}"
  {
    var opening := [Line(0, first), Line(0, "")];
    RenderConcat("", opening, Block(0, header, body));
    assert opening[..1] == [Line(0, first)];
    RenderUnindented("", first);
    assert RenderLine(Line(0, "")) == "";
    assert Render("", opening) == first + "\n";
    Framed(first + "\n", header, body);
    assert AppendLine(first + "\n", header + " {") == first + "\n\n" + header + " {";
  }

  /** The lines of a doc comment: nothing for a blank text; otherwise a blank
      line and one `/// ` line per non-empty line of the trimmed text. */
  function DocComment(level: nat, text: string): seq<Line> {
    var trimmed := Trim(text);
    if trimmed == "" then []
    else [Line(level, "")] + CommentLines(level, NonEmptyLines(trimmed))
  }

  function CommentLines(level: nat, ls: seq<string>): (r: seq<Line>)
    ensures |r| == |ls| && forall i :: 0 <= i < |ls| ==> r[i] == Line(level, "/// " + ls[i])
  {
    seq(|ls|, i requires 0 <= i < |ls| => Line(level, "/// " + ls[i]))
  }

  /** A blank text makes no doc comment; otherwise the comment is a blank
      line followed by `/// ` lines, all at the writer's level. */
  lemma DocCommentShape(level: nat, text: string)
    ensures DocComment(level, text) == [] <==> Trim(text) == ""
    ensures var d := DocComment(level, text);
      && (forall i :: 0 <= i < |d| ==> d[i].level == level)
      && (|d| > 0 ==> d[0].text == "" && forall i :: 1 <= i < |d| ==> HasPrefix(d[i].text, "/// "))
  {
  }

  /** A one-line text without blanks at its ends is a blank line and one `/// ` line. */
  lemma DocCommentOneLine(level: nat, text: string)
    requires text != "" && !IsSpace(text[0]) && !IsSpace(text[|text| - 1]) && '\n' !in text
    ensures DocComment(level, text) == [Line(level, ""), Line(level, "/// " + text)]
  {
    assert TrimStart(text) == text;
    assert TrimEnd(text) == text;
    SplitLinesNoLineFeed(text);
    assert NonEmpty([text]) == [text] + NonEmpty([]);
  }

  /** The texts of the `/// ` lines, without their marker, joined by newlines
      give back the trimmed text when that has no empty line. */
  lemma DocCommentRoundTrip(level: nat, text: string)
    requires Trim(text) != ""
    requires forall i :: 0 <= i < |SplitLines(Trim(text))| ==> SplitLines(Trim(text))[i] != ""
    ensures var d := DocComment(level, text);
      Join(seq(|d| - 1, i requires 0 <= i < |d| - 1 => d[i + 1].text[4..]), '\n') == Trim(text)
  {
    var trimmed := Trim(text);
    var d := DocComment(level, text);
    var ls := NonEmptyLines(trimmed);
    NonEmptyFacts(SplitLines(trimmed));
    assert forall i :: 0 <= i < |ls| ==> d[i + 1].text[4..] == ls[i];
    assert seq(|d| - 1, i requires 0 <= i < |d| - 1 => d[i + 1].text[4..]) == ls;
    JoinSplitLines(trimmed);
  }

  // makeStringLiteral

  /** `replacingOccurrences(of: [c], with: rep)`. */
  function Replace(s: string, c: char, rep: string): string {
    if |s| == 0 then ""
    else (if s[0] == c then rep else [s[0]]) + Replace(s[1..], c, rep)
  }

  /** A replacement without `c` leaves no `c`; a text without `c` is left as it is. */
  lemma {:induction false} ReplaceFacts(s: string, c: char, rep: string)
    ensures c !in rep ==> c !in Replace(s, c, rep)
    ensures c !in s ==> Replace(s, c, rep) == s
  {
    if |s| > 0 {
      ReplaceFacts(s[1..], c, rep);
      if c !in s {
        assert c !in s[1..];
        assert s == [s[0]] + s[1..];
      }
    }
  }

  lemma {:induction false} ReplaceConcat(a: string, b: string, c: char, rep: string)
    ensures Replace(a + b, c, rep) == Replace(a, c, rep) + Replace(b, c, rep)
    decreases |a|
  {
    if |a| > 0 {
      ReplaceConcat(a[1..], b, c, rep);
      assert (a + b)[1..] == a[1..] + b;
    } else {
      assert a + b == b;
    }
  }

  /** The Swift literal for `text`: quotes around it, `"` and newline escaped. */
  function MakeStringLiteral(text: string): string {
    "\"" + Replace(Replace(text, '"', "\\\""), '\n', "\\n") + "\""
  }

  /** How Swift reads the inside of a string literal (for the two escapes the generator writes). */
  function Unescape(s: string): string
    decreases |s|
  {
    if |s| == 0 then ""
    else if |s| >= 2 && s[0] == '\\' && s[1] == '"' then "\"" + Unescape(s[2..])
    else if |s| >= 2 && s[0] == '\\' && s[1] == 'n' then "\n" + Unescape(s[2..])
    else [s[0]] + Unescape(s[1..])
  }

  /** The literal is one line, quoted at both ends. */
  lemma StringLiteralShape(text: string)
    ensures var lit := MakeStringLiteral(text);
      && |lit| >= 2 && lit[0] == '"' && lit[|lit| - 1] == '"'
      && '\n' !in lit
  {
    var inner := Replace(Replace(text, '"', "\\\""), '\n', "\\n");
    ReplaceFacts(Replace(text, '"', "\\\""), '\n', "\\n");
    assert MakeStringLiteral(text) == "\"" + inner + "\"";
  }

  /** For a text without backslashes the literal reads back as the text. */
  lemma StringLiteralRoundTrip(text: string)
    requires '\\' !in text
    ensures var lit := MakeStringLiteral(text); Unescape(lit[1..|lit| - 1]) == text
  {
    var lit := MakeStringLiteral(text);
    var inner := Replace(Replace(text, '"', "\\\""), '\n', "\\n");
    assert lit[1..|lit| - 1] == inner;
    EscapedRoundTrip(text);
  }

  lemma {:induction false} EscapedRoundTrip(text: string)
    requires '\\' !in text
    ensures Unescape(Replace(Replace(text, '"', "\\\""), '\n', "\\n")) == text
    decreases |text|
  {
    if |text| > 0 {
      var head := if text[0] == '"' then "\\\"" else [text[0]];
      assert Replace(text, '"', "\\\"") == head + Replace(text[1..], '"', "\\\"");
      ReplaceConcat(head, Replace(text[1..], '"', "\\\""), '\n', "\\n");
      var rest := Replace(Replace(text[1..], '"', "\\\""), '\n', "\\n");
      EscapedRoundTrip(text[1..]);
      if text[0] == '"' {
        assert Replace(head, '\n', "\\n") == "\\\"";
        assert ("\\\"" + rest)[2..] == rest;
      } else if text[0] == '\n' {
        assert Replace(head, '\n', "\\n") == "\\n";
        assert ("\\n" + rest)[2..] == rest;
      } else {
        assert Replace(head, '\n', "\\n") == [text[0]];
        assert ([text[0]] + rest)[1..] == rest;
      }
      assert text == [text[0]] + text[1..];
    }
  }

  /** Backslashes are not escaped, so a backslash-n in the text and a newline give the same literal. */
  lemma StringLiteralNotInjective()
    ensures MakeStringLiteral("\\n") == MakeStringLiteral("\n")
  {
    assert Replace("\\n", '"', "\\\"") == "\\n";
    assert Replace("\\n", '\n', "\\n") == "\\n";
    assert Replace("\n", '"', "\\\"") == "\n";
    assert Replace("\n", '\n', "\\n") == "\\n";
  }

  /** The writer: the text written so far and the current indentation level. */
  class SwiftCodeWriter {
    var output: string
    var indentationLevel: int

    constructor()
      ensures output == "" && indentationLevel == 0
    {
      output := "";
      indentationLevel := 0;
    }

    /** Appends `text` as a new line at the current indentation. */
    method AddLine(text: string)
      requires indentationLevel >= 0
      modifies this
      ensures indentationLevel == old(indentationLevel)
      ensures output == Render(old(output), [Line(indentationLevel, text)])
    {
      output := output + (if output == "" then "" else "\n") + Indentation(indentationLevel) + text;
      assert [Line(indentationLevel, text)][..0] == [];
    }

    /** The first half of `withIndentation`: one level deeper. */
    method BeginIndentation()
      modifies this
      ensures indentationLevel == old(indentationLevel) + 1 && output == old(output)
    {
      indentationLevel := indentationLevel + 1;
    }

    /** The second half of `withIndentation`: back to the level before. */
    method EndIndentation()
      modifies this
      ensures indentationLevel == old(indentationLevel) - 1 && output == old(output)
    {
      indentationLevel := indentationLevel - 1;
    }

    /** The first half of `inBlock`: the header line, then one level deeper. */
    method OpenBlock(header: string)
      requires indentationLevel >= 0
      modifies this
      ensures output == Render(old(output), [Line(old(indentationLevel), header + " {")])
      ensures indentationLevel == old(indentationLevel) + 1
    {
      AddLine(header + " {");
      BeginIndentation();
    }

    /** The second half of `inBlock`: back one level, then the closing brace. */
    method CloseBlock()
      requires indentationLevel >= 1
      modifies this
      ensures indentationLevel == old(indentationLevel) - 1
      ensures output == Render(old(output), [Line(indentationLevel, "}")])
    {
      EndIndentation();
      AddLine("}");
    }

    /** Writes `text` as a doc comment, or nothing when it is blank. */
    method AddDocComment(text: string)
      requires indentationLevel >= 0
      modifies this
      ensures indentationLevel == old(indentationLevel)
      ensures output == Render(old(output), DocComment(indentationLevel, text))
    {
      var trimmed := Trim(text);
      if trimmed == "" {
        return;
      }
      AddLine("");
      var ls := NonEmptyLines(trimmed);
      AddCommentLines(ls);
      RenderConcat(old(output), [Line(indentationLevel, "")], CommentLines(indentationLevel, ls));
    }

    /** The loop of `addDocComment`: one `/// ` line per line of the comment. */
    method AddCommentLines(ls: seq<string>)
      requires indentationLevel >= 0
      modifies this
      ensures indentationLevel == old(indentationLevel)
      ensures output == Render(old(output), CommentLines(indentationLevel, ls))
    {
      ghost var start := output;
      for i := 0 to |ls|
        invariant indentationLevel == old(indentationLevel)
        invariant output == Render(start, CommentLines(indentationLevel, ls[..i]))
      {
        AddLine("/// " + ls[i]);
        assert CommentLines(indentationLevel, ls[..i + 1]) == CommentLines(indentationLevel, ls[..i]) + [Line(indentationLevel, "/// " + ls[i])];
        RenderConcat(start, CommentLines(indentationLevel, ls[..i]), [Line(indentationLevel, "/// " + ls[i])]);
      }
      assert ls[..|ls|] == ls;
    }
  }
}
