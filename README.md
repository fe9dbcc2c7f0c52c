# owowgenerate-ios, modelled in Dafny

owowgenerate-ios reads the `Localizable.strings` files of an iOS app. From
them it generates Swift code that gives every translation key a typed
accessor, and it keeps the secondary translation files in step with the
primary one. This project models the core of that program. It proves what the
generated code and the rewritten files look like, for text treated as a
sequence of characters under the limits listed under "## Left out".

The modules follow the program's files:

- `Text` (text.dfy): the Foundation string operations the program relies on,
  over ASCII. These are `trimmingCharacters(in: .whitespacesAndNewlines)`,
  `split` with and without empty pieces, `joined`, `lowercased`,
  `capitalized`, the decimal numeral of an `Int`, and `sorted(by:)` on
  dictionary keys.
- `Configuration` (configuration.dfy): the case style of the keys, the
  delimiter of each style, and the files the configured tasks read and write.
- `ConvertCasing` (convert_casing.dfy): `camelCase(delimiter:upper:)`.
- `StringsModel` (strings_parser.dfy):
  - the tree of entries, keyed by the dot-separated segments of each key,
    with its `collectionForKey` getter and setter and its key lookup;
  - the line parser, a class holding the collection and the pending comment.
    It classifies a line as unrecognized, a comment or an entry. It attaches
    the pending comment to the next entry and stores the entry in the tree.
- `PlaceholderTypes` (placeholder_type.dfy):
  - the placeholder kinds and `init?(formatChar:)`;
  - a scanner for the conversion specifiers that the format regular
    expression matches;
  - the loop that lays the specifiers out by argument position. It fills
    gaps with `unknown` and rejects a position given two different kinds.
- `SwiftCodeWriting` (swift_code_writer.dfy): the append-only code writer and
  its indentation counter, its doc comments and its string literals. The
  output is specified as a list of lines rendered in turn.
- `GeneratorNames` (generator_names.dfy): what the three mapping writers
  share:
  - member, type and parameter names;
  - the order in which a collection's namespaces and entries are written;
  - the `public` form of a line.
- `LocalizedStringWriter` (localized_string_writer.dfy): the
  `NSLocalizedString` mapping, with its sticky library flag.
- `LegacyLocalizedStringWriter` (legacy_localized_string_writer.dfy): the
  older `NSLocalizedString` mapping, which has no import and ignores
  placeholders.
- `SwiftUIWriter` (swiftui_code_writer.dfy): the SwiftUI `Text` mapping. It
  covers the `shouldBePublic` toggling and the text-concatenation variant,
  which splices caller-supplied `Text` values between the pieces of a
  formatted string.
- `TranslationRewriting` (translation_file_rewriter.dfy): the rewrite of the
  secondary translation files. It checks for keys the primary file lacks,
  then fans every line of the primary file out to every secondary buffer.

The source's mutable entities are classes:
- `StringsParser`;
- `SwiftCodeWriter`;
- one generator class per writer file, holding that file's global flags.

Its loops and recursive writers are methods. Each method is proved against a
function that gives the lines it writes. The properties the program relies on
are lemmas about those functions.

Swift closures cannot be passed to a Dafny method. So `inBlock` and
`withIndentation` are split into an opening and a closing method, and the
callers call both around the body.

## Model

| member | source | states |
|---|---|---|
| Configuration.CaseStyle.Delimiter | Sources/owowgenerate-ios/Configuration/Configuration.swift:68-74 | camel case has no delimiter, kebab case `-`, snake case `_`, in both directions |
| Configuration.Config.KeyCaseStyle | Sources/owowgenerate-ios/Configuration/Configuration.swift:14-16 | the configured style when one is given, kebab case otherwise |
| Configuration.Config.InputFiles | Sources/owowgenerate-ios/Configuration/Configuration.swift:18-20 | a file is an input exactly when it is one of the strings files |
| Configuration.Config.OutputFilesMembership | Sources/owowgenerate-ios/Configuration/Configuration.swift:22-33 | a file is an output exactly when a mapping task names it as its output, or a rewrite task exists and it is a strings file after the first; file-list tasks add nothing |
| Configuration.Config.AllOutputsMembership | Sources/owowgenerate-ios/Configuration/Configuration.swift:22-33 | the `compactMap` and `reduce` over any list of tasks holds exactly the files those tasks write |
| ConvertCasing.NoDelimiterUnchanged | Sources/owowgenerate-ios/Utils/ConvertCasing.swift:2-14 | a name without the delimiter comes back unchanged, whatever `upper` says |
| ConvertCasing.NoDelimiterInResult | Sources/owowgenerate-ios/Utils/ConvertCasing.swift:2-14 | for a delimiter that is not a letter, the result never contains it |
| ConvertCasing.CamelCaseIdempotent | Sources/owowgenerate-ios/Utils/ConvertCasing.swift:2-14 | converting a converted name again changes nothing |
| ConvertCasing.FirstWord | Sources/owowgenerate-ios/Utils/ConvertCasing.swift:4-10 | the result starts with the first segment, lower-cased, or capitalized when `upper` |
| ConvertCasing.LeadingDelimiterDropped | Sources/owowgenerate-ios/Utils/ConvertCasing.swift:4 | empty segments are dropped: a delimiter in front changes nothing |
| ConvertCasing.DigitStartsWord | Sources/owowgenerate-ios/Utils/ConvertCasing.swift:4-10 | a word of `capitalized` starts after a digit too: `a-1st` with `-` becomes `a1St` |
| Text.CapitalizedExamples | Sources/owowgenerate-ios/Utils/ConvertCasing.swift:8 | `capitalized` starts a word after anything but a letter or a case-ignorable character inside a word: `1st` gives `1St`, `x_y` gives `X_Y`, `it's` stays `It's`, `'s` gives `'S` |
| Text.TrimFacts | Sources/owowgenerate-ios/Parser/StringsParser.swift:104 | the trimmed text neither starts nor ends with a blank, and it is empty exactly when the text is all blanks |
| Text.SplitFacts | Sources/owowgenerate-ios/Parser/StringsParser.swift:14 | no piece of a default `split` is empty or holds the separator |
| Text.SplitJoin | Sources/owowgenerate-ios/Parser/StringsParser.swift:21-25 | splitting the re-joined remaining parts of a key gives those parts back |
| Text.JoinSplitLines | Sources/owowgenerate-ios/Parser/StringsParser.swift:179 | the lines of a text, empty ones kept, joined by newlines give the text back |
| Text.SplitLinesOnlyCrLf | Sources/owowgenerate-ios/Parser/StringsParser.swift:179 | a line feed stays inside a line only as part of a "\r\n" `Character` |
| Text.SplitLinesWithoutCr | Sources/owowgenerate-ios/Parser/StringsParser.swift:179 | without carriage returns the lines are the plain split at every line feed, empty pieces kept |
| Text.CrLfNotSplit | Sources/owowgenerate-ios/Parser/StringsParser.swift:179 | "a\r\nb" is one line, while "a\nb" is two |
| Text.SplitLinesNoLineFeed | Sources/owowgenerate-ios/Writers/SwiftCodeWriter.swift:36 | a text without a line feed is a single line |
| Text.NatToStringRoundTrip | Sources/owowgenerate-ios/Writers/SwiftUICodeWriter.swift:89-91 | the decimal numeral written for an index reads back as that index |
| Text.NatToStringInjective | Sources/owowgenerate-ios/Writers/SwiftUICodeWriter.swift:89-91 | different indices are written as different numerals |
| Text.SortedKeysMembers | Sources/owowgenerate-ios/Writers/NSLocalizedStringWriter.swift:22 | the sorted keys are exactly the dictionary's keys |
| Text.SortedKeysAscending | Sources/owowgenerate-ios/Writers/NSLocalizedStringWriter.swift:22 | the sorted keys are strictly ascending |
| StringsModel.SingleSegmentIsSelf | Sources/owowgenerate-ios/Parser/StringsParser.swift:12-36 | for a key with at most one segment the getter returns the collection itself, and the setter replaces the whole collection with the new value |
| StringsModel.GetterDescends | Sources/owowgenerate-ios/Parser/StringsParser.swift:13-29 | the getter follows every segment but the last, taking an empty collection where a link is missing |
| StringsModel.GetAfterSet | Sources/owowgenerate-ios/Parser/StringsParser.swift:30-49 | reading back the collection just set for a key gives it |
| StringsModel.SetKeepsOtherChildren | Sources/owowgenerate-ios/Parser/StringsParser.swift:39-48 | setting below a key's first segment keeps the node's entries and every other sub-collection, and adds only that segment |
| StringsModel.FirstWithKey | Sources/owowgenerate-ios/Parser/StringsParser.swift:54 | nothing when no entry has the key; otherwise an entry with the key that no earlier entry has |
| StringsModel.FirstWithKeyAppend | Sources/owowgenerate-ios/Parser/StringsParser.swift:52-56 | appending an entry keeps the first match, or makes the new entry the match |
| StringsModel.StoreAppendsAtNode | Sources/owowgenerate-ios/Parser/StringsParser.swift:189-191 | storing appends the entry, last, to the node for its key; that node grows by exactly one |
| StringsModel.StoreThenLookup | Sources/owowgenerate-ios/Parser/StringsParser.swift:52-56 | after storing, the key is found; the entry found is the first one stored under the key |
| StringsModel.CommentText | Sources/owowgenerate-ios/Parser/StringsParser.swift:110-115 | the comment text is the line with `///` removed, or `//` when there is no `///` |
| StringsModel.AppendCommentJoins | Sources/owowgenerate-ios/Parser/StringsParser.swift:148-154 | the pending comment is the trimmed comment lines joined by newlines, with no newline before the first |
| StringsModel.NextQuote | Sources/owowgenerate-ios/Parser/StringsParser.swift:122-126 | the first `"` at or after a position, or none when there is none |
| StringsModel.FirstQuotedFrom | Sources/owowgenerate-ios/Parser/StringsParser.swift:122-128 | a match of `"[^"]+"` has non-empty contents without a quote |
| StringsModel.KeyOfQuoted | Sources/owowgenerate-ios/Parser/StringsParser.swift:120-128 | a line that starts with a quoted key gives that key back |
| StringsModel.UnrecognizedChangesNothing | Sources/owowgenerate-ios/Parser/StringsParser.swift:106-108 | `// MARK:` and `/*` lines, and lines that are neither a comment nor an entry, come back unrecognized, raw, with collection and pending comment untouched |
| StringsModel.CommentLineAppends | Sources/owowgenerate-ios/Parser/StringsParser.swift:109-119 | a comment line returns its trimmed text, appends it to the pending comment after a newline only when one is pending, and leaves the collection alone |
| StringsModel.EntryLineStores | Sources/owowgenerate-ios/Parser/StringsParser.swift:120-139 | an entry line makes an entry with the quoted key, the pending comment, the file, the line number, the dictionary's value and its inferred placeholders; it stores the entry last at its node and clears the comment |
| StringsModel.NoEntryLinesNoChange | Sources/owowgenerate-ios/Parser/StringsParser.swift:179-181 | lines without an entry line leave the collection as it was |
| StringsModel.StringsParser.constructor | Sources/owowgenerate-ios/Parser/StringsParser.swift:80-81 | a new parser holds an empty collection and no pending comment |
| StringsModel.StringsParser.ParseLine | Sources/owowgenerate-ios/Parser/StringsParser.swift:103-143 | the new collection, the new pending comment and the result are those of the line-parsing specification |
| StringsModel.StringsParser.AddCommentLine | Sources/owowgenerate-ios/Parser/StringsParser.swift:148-154 | the pending comment becomes the old one joined to the trimmed text; the collection is unchanged |
| StringsModel.StringsParser.Parse | Sources/owowgenerate-ios/Parser/StringsParser.swift:169-187 | the collection is the old one with every line of the text parsed in order, numbered from 0, starting with no pending comment; afterwards no comment is pending |
| StringsModel.StringsParser.StoreEntry | Sources/owowgenerate-ios/Parser/StringsParser.swift:189-191 | the collection becomes the old one with the entry stored; the pending comment is unchanged |
| StringsModel.ParseStringsFile | Sources/owowgenerate-ios/Parser/StringsParser.swift:162-166 | a fresh parser over the file gives the parse of the whole file |
| PlaceholderTypes.RawValueInjective | Sources/owowgenerate-ios/Parser/PlaceholderType.swift:33-39 | different kinds have different raw values, so the generated parameter types tell them apart |
| PlaceholderTypes.FromFormatCharTable | Sources/owowgenerate-ios/Parser/PlaceholderType.swift:43-63 | `@` gives object, `aefg` float, `dioux` int, `c` char, `s` C string, `p` pointer, any other character nothing, in both directions |
| PlaceholderTypes.FromFormatCharIgnoresCase | Sources/owowgenerate-ios/Parser/PlaceholderType.swift:44 | upper- and lower-case conversion characters give the same kind |
| PlaceholderTypes.PercentRun | Sources/owowgenerate-ios/Parser/PlaceholderType.swift:79 | the run of `%` at a position, and that it ends at a non-`%` or the end |
| PlaceholderTypes.DigitRun | Sources/owowgenerate-ios/Parser/PlaceholderType.swift:73 | the run of digits at a position, and that it ends at a non-digit or the end |
| PlaceholderTypes.PositionAt | Sources/owowgenerate-ios/Parser/PlaceholderType.swift:73 | a positional prefix, when present, is consumed within the text |
| PlaceholderTypes.IntConversionAt | Sources/owowgenerate-ios/Parser/PlaceholderType.swift:69 | an integer conversion with its optional length modifier ends within the text |
| PlaceholderTypes.ConversionAt | Sources/owowgenerate-ios/Parser/PlaceholderType.swift:79 | a conversion group ends within the text |
| PlaceholderTypes.ConversionStarts | Sources/owowgenerate-ios/Parser/PlaceholderType.swift:75 | the flag, width and precision choices leave the conversion within the text |
| PlaceholderTypes.WidthAndPrecision | Sources/owowgenerate-ios/Parser/PlaceholderType.swift:75 | the width and precision choices stay within the text |
| PlaceholderTypes.Precision | Sources/owowgenerate-ios/Parser/PlaceholderType.swift:75 | the precision choices stay within the text |
| PlaceholderTypes.FirstConversion | Sources/owowgenerate-ios/Parser/PlaceholderType.swift:75-79 | the conversion found after one of the candidate starts ends within the text |
| PlaceholderTypes.SpecifierAt | Sources/owowgenerate-ios/Parser/PlaceholderType.swift:79 | a specifier found after a `%` ends within the text |
| PlaceholderTypes.MatchAt | Sources/owowgenerate-ios/Parser/PlaceholderType.swift:79 | a match found at a position consumes at least one character within the text |
| PlaceholderTypes.TextWithoutPercentSkipped | Sources/owowgenerate-ios/Parser/PlaceholderType.swift:92 | text without `%` yields no specifier |
| PlaceholderTypes.InsideRunSkipped | Sources/owowgenerate-ios/Parser/PlaceholderType.swift:79 | no match starts inside a run of `%` |
| PlaceholderTypes.NoMatchSkipped | Sources/owowgenerate-ios/Parser/PlaceholderType.swift:92 | where no match starts, the scan moves on one character |
| PlaceholderTypes.EvenRunNoMatch | Sources/owowgenerate-ios/Parser/PlaceholderType.swift:79 | an even run of `%` starts no match |
| PlaceholderTypes.EscapedPercentsSkipped | Sources/owowgenerate-ios/Parser/PlaceholderType.swift:79 | a run of `%%` escapes yields no specifier and the scan continues after it |
| PlaceholderTypes.SimpleSpecifier | Sources/owowgenerate-ios/Parser/PlaceholderType.swift:79-114 | an unescaped `%` directly followed by a conversion character is one specifier without a position, and the scan goes on after it |
| PlaceholderTypes.SimpleSpecifierMatch | Sources/owowgenerate-ios/Parser/PlaceholderType.swift:79 | such a `%` matches exactly two characters |
| PlaceholderTypes.OddRunMatch | Sources/owowgenerate-ios/Parser/PlaceholderType.swift:79 | after an odd run of `%` the match is the specifier at the run's last `%` |
| PlaceholderTypes.MatchTaken | Sources/owowgenerate-ios/Parser/PlaceholderType.swift:92 | a match yields its specifier and the search resumes where it ended |
| PlaceholderTypes.SimpleSpecifierBody | Sources/owowgenerate-ios/Parser/PlaceholderType.swift:79 | a bare conversion character is a specifier without a position |
| PlaceholderTypes.FirstConflictFrom | Sources/owowgenerate-ios/Parser/PlaceholderType.swift:133-136 | the first specifier that meets a slot holding another concrete kind, or none when no specifier does |
| PlaceholderTypes.Infer | Sources/owowgenerate-ios/Parser/PlaceholderType.swift:118-141 | the inference fails exactly when some specifier meets a slot holding a different concrete kind |
| PlaceholderTypes.PlaceholdersFromFormat | Sources/owowgenerate-ios/Parser/PlaceholderType.swift:88-142 | the result is the inference over the specifiers the scanner finds |
| PlaceholderTypes.PlaceholdersFromSpecifiers | Sources/owowgenerate-ios/Parser/PlaceholderType.swift:116-141 | the array-growing loop computes the inference: the same list, or the same error |
| PlaceholderTypes.SlotBeyondMaxIsUnknown | Sources/owowgenerate-ios/Parser/PlaceholderType.swift:129-132 | a slot past the highest position referred to holds `unknown` |
| PlaceholderTypes.MaxPositionIsHighest | Sources/owowgenerate-ios/Parser/PlaceholderType.swift:129-132 | the result's length is the highest position any specifier writes, and some specifier writes it |
| PlaceholderTypes.UnreferencedSlotIsUnknown | Sources/owowgenerate-ios/Parser/PlaceholderType.swift:130-131 | a slot no specifier refers to holds `unknown` |
| PlaceholderTypes.InferFillsGapsWithUnknown | Sources/owowgenerate-ios/Parser/PlaceholderType.swift:130-131 | on success, slots no specifier refers to are `unknown` |
| PlaceholderTypes.NonPositionalCount | Sources/owowgenerate-ios/Parser/PlaceholderType.swift:125-127 | with only non-positional specifiers, the counter has advanced once per specifier |
| PlaceholderTypes.NonPositionalSlots | Sources/owowgenerate-ios/Parser/PlaceholderType.swift:125-137 | with only non-positional specifiers, slot `p` holds the kind of the `p`-th specifier |
| PlaceholderTypes.NonPositionalMax | Sources/owowgenerate-ios/Parser/PlaceholderType.swift:125-130 | with only non-positional specifiers, the highest position is their count |
| PlaceholderTypes.NonPositionalScanOrder | Sources/owowgenerate-ios/Parser/PlaceholderType.swift:119-128 | specifiers without a position take positions 1, 2, 3, … in scan order |
| PlaceholderTypes.NonPositionalNoConflict | Sources/owowgenerate-ios/Parser/PlaceholderType.swift:125-137 | a specifier without a position always takes a fresh slot and never conflicts |
| PlaceholderTypes.PointerSlotMayBeOverwritten | Sources/owowgenerate-ios/Parser/PlaceholderType.swift:41 | because `unknown` is `pointer`, a later specifier may overwrite a `%p` slot with another kind |
| PlaceholderTypes.DocumentedExample | Sources/owowgenerate-ios/Parser/PlaceholderType.swift:87 | "I give %d apples to %@" gives int, object |
| PlaceholderTypes.DocumentedExampleScan | Sources/owowgenerate-ios/Parser/PlaceholderType.swift:87-114 | the scan of that example finds `%d` and then `%@`, both without a position |
| PlaceholderTypes.ScanSkipsTwoSpecifiers | Sources/owowgenerate-ios/Parser/PlaceholderType.swift:92-114 | text with exactly two simple specifiers yields exactly those two, in order |
| PlaceholderTypes.TextThenSpecifier | Sources/owowgenerate-ios/Parser/PlaceholderType.swift:92-114 | text without `%` and then a simple specifier yields that specifier first |
| PlaceholderTypes.SameKindTwiceAccepted | Sources/owowgenerate-ios/Parser/PlaceholderType.swift:134 | naming a position again with the same kind is accepted |
| PlaceholderTypes.DifferentKindsRejected | Sources/owowgenerate-ios/Parser/PlaceholderType.swift:134-135 | naming a position with two concrete kinds fails, naming the previous kind and the new one |
| SwiftCodeWriting.AppendLineExtends | Sources/owowgenerate-ios/Writers/SwiftCodeWriter.swift:10-12 | a new line keeps the old output as a prefix and ends with the line, with a newline only after non-empty output |
| SwiftCodeWriting.RenderConcat | Sources/owowgenerate-ios/Writers/SwiftCodeWriter.swift:10-12 | writing two runs of lines is writing their concatenation |
| SwiftCodeWriting.RenderGrows | Sources/owowgenerate-ios/Writers/SwiftCodeWriter.swift:10-12 | the output only grows: the old output stays a prefix |
| SwiftCodeWriting.RenderAfterText | Sources/owowgenerate-ios/Writers/SwiftCodeWriter.swift:6-12 | written after non-empty output, the lines are their indented texts, each after a newline |
| SwiftCodeWriting.RenderBlock | Sources/owowgenerate-ios/Writers/SwiftCodeWriter.swift:20-26 | a block is its header line with ` {`, its body, and `}` at the header's level |
| SwiftCodeWriting.RenderFromEmpty | Sources/owowgenerate-ios/Writers/SwiftCodeWriter.swift:10-12 | written into an empty writer, lines are joined by newlines with nothing in front |
| SwiftCodeWriting.DocCommentShape | Sources/owowgenerate-ios/Writers/SwiftCodeWriter.swift:28-38 | a blank text writes nothing; any other text writes a blank line and then `/// ` lines, all at the current level |
| SwiftCodeWriting.DocCommentOneLine | Sources/owowgenerate-ios/Writers/SwiftCodeWriter.swift:28-38 | a one-line text without blanks at its ends becomes a blank line and one `/// ` line |
| SwiftCodeWriting.DocCommentRoundTrip | Sources/owowgenerate-ios/Writers/SwiftCodeWriter.swift:28-38 | the `/// ` lines without their marker, joined by newlines, give back the trimmed text |
| SwiftCodeWriting.StringLiteralShape | Sources/owowgenerate-ios/Writers/SwiftCodeWriter.swift:41-43 | the literal is quoted at both ends and holds no raw newline |
| SwiftCodeWriting.StringLiteralRoundTrip | Sources/owowgenerate-ios/Writers/SwiftCodeWriter.swift:41-43 | for a text without backslashes, Swift reads the literal back as the text |
| SwiftCodeWriting.StringLiteralNotInjective | Sources/owowgenerate-ios/Writers/SwiftCodeWriter.swift:41-43 | backslashes are not escaped, so a backslash-n and a newline give the same literal |
| SwiftCodeWriting.SwiftCodeWriter.constructor | Sources/owowgenerate-ios/Writers/SwiftCodeWriter.swift:1-4 | a new writer has empty output at level 0 |
| SwiftCodeWriting.SwiftCodeWriter.AddLine | Sources/owowgenerate-ios/Writers/SwiftCodeWriter.swift:10-12 | the output gains the line at the current level; the level is unchanged |
| SwiftCodeWriting.SwiftCodeWriter.BeginIndentation | Sources/owowgenerate-ios/Writers/SwiftCodeWriter.swift:14-15 | one level deeper, output unchanged |
| SwiftCodeWriting.SwiftCodeWriter.EndIndentation | Sources/owowgenerate-ios/Writers/SwiftCodeWriter.swift:17 | back one level, output unchanged |
| SwiftCodeWriting.SwiftCodeWriter.OpenBlock | Sources/owowgenerate-ios/Writers/SwiftCodeWriter.swift:20-22 | the header line with ` {` at the current level, then one level deeper |
| SwiftCodeWriting.SwiftCodeWriter.CloseBlock | Sources/owowgenerate-ios/Writers/SwiftCodeWriter.swift:24-25 | back one level, then `}` at that level |
| SwiftCodeWriting.SwiftCodeWriter.AddDocComment | Sources/owowgenerate-ios/Writers/SwiftCodeWriter.swift:28-39 | the output gains the doc comment of the text; the level is unchanged |
| SwiftCodeWriting.SwiftCodeWriter.AddCommentLines | Sources/owowgenerate-ios/Writers/SwiftCodeWriter.swift:36-38 | the loop writes one `/// ` line per line, in order |
| GeneratorNames.LastSegmentFacts | Sources/owowgenerate-ios/Writers/SwiftUICodeWriter.swift:48 | the last key segment is empty only for a key without segments; otherwise it holds no dot and is the last piece of the split |
| GeneratorNames.PlaceholderNamesDistinct | Sources/owowgenerate-ios/Writers/SwiftUICodeWriter.swift:64-68 | different placeholder indices give different parameter names |
| GeneratorNames.MemberAt | Sources/owowgenerate-ios/Writers/SwiftUICodeWriter.swift:24-47 | an item that is a namespace names an existing sub-collection |
| GeneratorNames.MembersOrder | Sources/owowgenerate-ios/Writers/SwiftUICodeWriter.swift:24-47 | a collection writes its sub-collections first, then all its entries in stored order |
| GeneratorNames.NamespaceMembersSorted | Sources/owowgenerate-ios/Writers/SwiftUICodeWriter.swift:24 | every sub-collection is written exactly once, in ascending name order |
| GeneratorNames.DeclarationLine | Sources/owowgenerate-ios/Writers/NSLocalizedStringWriter.swift:28 | a declaration built for a library is the public form of the same declaration built for an app |
| GeneratorNames.DeclarationBlock | Sources/owowgenerate-ios/Writers/NSLocalizedStringWriter.swift:29-34 | a block under a library declaration header is the public form of the app's block |
| LocalizedStringWriter.DeclarationTexts | Sources/owowgenerate-ios/Writers/NSLocalizedStringWriter.swift:28-53 | the variable, function, namespace and struct lines are all declarations |
| LocalizedStringWriter.CodeFrame | Sources/owowgenerate-ios/Writers/NSLocalizedStringWriter.swift:8-18 | the file starts with `import Foundation` and then the `enum Strings` header, `public` exactly for a library, and ends with its closing brace |
| LocalizedStringWriter.DocCommentPlain | Sources/owowgenerate-ios/Writers/NSLocalizedStringWriter.swift:38 | doc comments read the same for an app and for a library |
| LocalizedStringWriter.EntryLinesForms | Sources/owowgenerate-ios/Writers/NSLocalizedStringWriter.swift:37-60 | an entry's library code is its app code with `public ` in front of each declaration |
| LocalizedStringWriter.NamespaceLinesForms | Sources/owowgenerate-ios/Writers/NSLocalizedStringWriter.swift:22-35 | likewise for a namespace and everything below it |
| LocalizedStringWriter.ItemLinesForms | Sources/owowgenerate-ios/Writers/NSLocalizedStringWriter.swift:21-61 | likewise for any item of a collection |
| LocalizedStringWriter.MembersLinesForms | Sources/owowgenerate-ios/Writers/NSLocalizedStringWriter.swift:21-61 | likewise for the first `n` items of a collection |
| LocalizedStringWriter.StringsLinesForms | Sources/owowgenerate-ios/Writers/NSLocalizedStringWriter.swift:21-61 | the library code of a whole tree is its app code with `public ` added to every declaration and nothing else |
| LocalizedStringWriter.LocalizedStringCodeGenerator.constructor | Sources/owowgenerate-ios/Writers/NSLocalizedStringWriter.swift:1 | the library flag starts false |
| LocalizedStringWriter.LocalizedStringCodeGenerator.MakeLocalizedStringCode | Sources/owowgenerate-ios/Writers/NSLocalizedStringWriter.swift:3-19 | the flag is only ever raised, so it sticks across calls; the code is the file for the tree under the flag |
| LocalizedStringWriter.WriteCode | Sources/owowgenerate-ios/Writers/NSLocalizedStringWriter.swift:8-18 | a fresh writer produces the import and the enum around the tree |
| LocalizedStringWriter.WriteBlock | Sources/owowgenerate-ios/Writers/NSLocalizedStringWriter.swift:14-16 | the block of the enum or a struct around the tree one level deeper; the level is restored |
| LocalizedStringWriter.WriteStrings | Sources/owowgenerate-ios/Writers/NSLocalizedStringWriter.swift:21-61 | the output gains the lines of the collection at the writer's level |
| LocalizedStringWriter.WriteMember | Sources/owowgenerate-ios/Writers/NSLocalizedStringWriter.swift:22-60 | one loop pass adds the next item's lines |
| LocalizedStringWriter.WriteNamespace | Sources/owowgenerate-ios/Writers/NSLocalizedStringWriter.swift:23-34 | a blank line, the `static var` giving the type, and the struct holding the sub-collection |
| LocalizedStringWriter.WriteEntry | Sources/owowgenerate-ios/Writers/NSLocalizedStringWriter.swift:38-59 | the doc comment, then a `static var` without placeholders, or a function with typed parameters and a two-line body |
| LegacyLocalizedStringWriter.LegacyCodeFrame | Sources/owowgenerate-ios/NSLocalizedStringWriter.swift:1-9 | the file is one `enum Strings` block, with no import |
| LegacyLocalizedStringWriter.PlaceholdersIgnored | Sources/owowgenerate-ios/NSLocalizedStringWriter.swift:25-31 | placeholders change nothing; an entry is its doc comment and one line |
| LegacyLocalizedStringWriter.NamespaceLinesAgree | Sources/owowgenerate-ios/NSLocalizedStringWriter.swift:12-23 | without placeholders, a namespace reads as in the later revision under kebab-case naming |
| LegacyLocalizedStringWriter.EntryLinesAgree | Sources/owowgenerate-ios/NSLocalizedStringWriter.swift:25-31 | without placeholders, an entry reads as in the later revision |
| LegacyLocalizedStringWriter.ItemLinesAgree | Sources/owowgenerate-ios/NSLocalizedStringWriter.swift:11-32 | likewise for any item |
| LegacyLocalizedStringWriter.MembersLinesAgree | Sources/owowgenerate-ios/NSLocalizedStringWriter.swift:11-32 | likewise for the first `n` items |
| LegacyLocalizedStringWriter.StringsLinesAgree | Sources/owowgenerate-ios/NSLocalizedStringWriter.swift:11-32 | a tree without placeholders gets the same lines from both revisions |
| LegacyLocalizedStringWriter.LaterRevisionAddsImport | Sources/owowgenerate-ios/NSLocalizedStringWriter.swift:1-9 | for such a tree the later revision's app code is this file with `import Foundation` in front |
| LegacyLocalizedStringWriter.MakeLocalizedStringCode | Sources/owowgenerate-ios/NSLocalizedStringWriter.swift:1-9 | the code is the enum block around the tree |
| LegacyLocalizedStringWriter.WriteStrings | Sources/owowgenerate-ios/NSLocalizedStringWriter.swift:11-32 | the output gains the lines of the collection at the writer's level |
| LegacyLocalizedStringWriter.WriteMember | Sources/owowgenerate-ios/NSLocalizedStringWriter.swift:12-31 | one loop pass adds the next item's lines |
| LegacyLocalizedStringWriter.WriteNamespace | Sources/owowgenerate-ios/NSLocalizedStringWriter.swift:13-22 | a blank line, the kebab-case `static var`, and the struct holding the sub-collection |
| LegacyLocalizedStringWriter.WriteEntry | Sources/owowgenerate-ios/NSLocalizedStringWriter.swift:26-30 | the doc comment and one `static var` holding the full key and the comment literal |
| SwiftUIWriter.SwiftUICodeFrame | Sources/owowgenerate-ios/Writers/SwiftUICodeWriter.swift:10-20 | the file is `import SwiftUI`, a blank line and the `extension SwiftUI.Text` block, `public` exactly for a library |
| SwiftUIWriter.TextArgumentsPresence | Sources/owowgenerate-ios/Writers/SwiftUICodeWriter.swift:51-56 | the `, comment:` argument is there exactly when the comment is not empty |
| SwiftUIWriter.MarkersDistinct | Sources/owowgenerate-ios/Writers/SwiftUICodeWriter.swift:89-91 | different placeholder indices get different markers |
| SwiftUIWriter.ObjectIndicesBelow | Sources/owowgenerate-ios/Writers/SwiftUICodeWriter.swift:132 | exactly the object placeholders below a bound, each below it |
| SwiftUIWriter.ObjectIndicesAscending | Sources/owowgenerate-ios/Writers/SwiftUICodeWriter.swift:131-132 | the object placeholders are visited in ascending order |
| SwiftUIWriter.FirstObject | Sources/owowgenerate-ios/Writers/SwiftUICodeWriter.swift:112 | an object placeholder with none before it |
| SwiftUIWriter.LastObject | Sources/owowgenerate-ios/Writers/SwiftUICodeWriter.swift:112 | an object placeholder with none after it |
| SwiftUIWriter.FirstPartCommentDoc | Sources/owowgenerate-ios/Writers/SwiftUICodeWriter.swift:126 | the fixed comment is written as a blank line and one `/// ` line |
| SwiftUIWriter.LaterSpansAreSpanBlocks | Sources/owowgenerate-ios/Writers/SwiftUICodeWriter.swift:131-142 | the loop writes one guard and one span per object placeholder after the first, ascending, each span starting at the first one |
| SwiftUIWriter.LastOfObjects | Sources/owowgenerate-ios/Writers/SwiftUICodeWriter.swift:112 | the last object index found is the last object placeholder |
| SwiftUIWriter.ConcatenationSpans | Sources/owowgenerate-ios/Writers/SwiftUICodeWriter.swift:116-146 | the variant's body is the format lines, the first guard and span, one guard and span per later object placeholder, and the final span from the last one |
| SwiftUIWriter.FormattedSplits | Sources/owowgenerate-ios/Writers/SwiftUICodeWriter.swift:119 | where each literal piece lies in the formatted string |
| SwiftUIWriter.WovenSplits | Sources/owowgenerate-ios/Writers/SwiftUICodeWriter.swift:119 | the formatted string is its first pieces and markers, then the rest |
| SwiftUIWriter.MarkerRangesOrdered | Sources/owowgenerate-ios/Writers/SwiftUICodeWriter.swift:122-140 | each marker ends before the next one starts |
| SwiftUIWriter.IntendedSpliceCorrect | Sources/owowgenerate-ios/Writers/SwiftUICodeWriter.swift:116-146 | splicing with each span starting at the previous marker gives the string formatted with the caller's texts |
| SwiftUIWriter.AsWrittenIntendedUpToTwo | Sources/owowgenerate-ios/Writers/SwiftUICodeWriter.swift:129-140 | with at most two object placeholders the code as written splices correctly |
| SwiftUIWriter.AsWrittenSpliceRepeatsText | Sources/owowgenerate-ios/Writers/SwiftUICodeWriter.swift:129-140 | with three object placeholders, the code as written repeats text that lies between markers |
| SwiftUIWriter.SwiftUICodeGenerator.constructor | Sources/owowgenerate-ios/Writers/SwiftUICodeWriter.swift:1-2 | both flags start false |
| SwiftUIWriter.SwiftUICodeGenerator.MakeSwiftUICode | Sources/owowgenerate-ios/Writers/SwiftUICodeWriter.swift:4-21 | the library flag sticks; a library request lowers `shouldBePublic`; the code is the file for the tree under the flags; the flag's final value follows its toggling |
| SwiftUIWriter.SwiftUICodeGenerator.WriteStrings | Sources/owowgenerate-ios/Writers/SwiftUICodeWriter.swift:23-86 | the output gains the collection's lines; `shouldBePublic` stays raised only for a library or a collection without namespaces |
| SwiftUIWriter.SwiftUICodeGenerator.WriteNamespaces | Sources/owowgenerate-ios/Writers/SwiftUICodeWriter.swift:24-45 | the first loop writes every namespace item in order |
| SwiftUIWriter.SwiftUICodeGenerator.WriteEntries | Sources/owowgenerate-ios/Writers/SwiftUICodeWriter.swift:47-85 | the second loop writes every entry in order and leaves the flags alone |
| SwiftUIWriter.SwiftUICodeGenerator.WriteMember | Sources/owowgenerate-ios/Writers/SwiftUICodeWriter.swift:24-85 | one pass adds the next item's lines; a namespace leaves `shouldBePublic` at the public choice it was written with |
| SwiftUIWriter.SwiftUICodeGenerator.WriteNamespace | Sources/owowgenerate-ios/Writers/SwiftUICodeWriter.swift:25-44 | a namespace is `public` exactly when `shouldBePublic` and the library flag hold; its type name ends in `StringsNamespace`; the else branch raises `shouldBePublic` and lowers it afterwards |
| SwiftUIWriter.SwiftUICodeGenerator.WriteTypeAndStruct | Sources/owowgenerate-ios/Writers/SwiftUICodeWriter.swift:31-42 | the `static var` giving the namespace type, then its struct, `public` or not as chosen by the caller |
| SwiftUIWriter.SwiftUICodeGenerator.WriteStructBlock | Sources/owowgenerate-ios/Writers/SwiftUICodeWriter.swift:40-42 | the struct around the sub-collection, written with `shouldBePublic` raised |
| SwiftUIWriter.SwiftUICodeGenerator.WriteEntry | Sources/owowgenerate-ios/Writers/SwiftUICodeWriter.swift:47-84 | a `static var` of `Text` for an entry without placeholders; otherwise a function returning `Text(verbatim:)`, plus the concatenation variant exactly when a placeholder is an object |
| SwiftUIWriter.WriteEntryFunction | Sources/owowgenerate-ios/Writers/SwiftUICodeWriter.swift:64-78 | the doc comment and the three-line function of an entry with placeholders |
| SwiftUIWriter.WriteTextConcatenationFunction | Sources/owowgenerate-ios/Writers/SwiftUICodeWriter.swift:88-147 | object parameters typed `Text` and passed as marker literals; the doc comment; the function holding the splicing body |
| SwiftUIWriter.OpenConcatenationFunction | Sources/owowgenerate-ios/Writers/SwiftUICodeWriter.swift:116-117 | the splicing variant's doc comment, then its `static func` line with `Text` parameters, one level deeper after it |
| SwiftUIWriter.WriteConcatenationBody | Sources/owowgenerate-ios/Writers/SwiftUICodeWriter.swift:112-146 | the first and last object placeholders found, then the body: format lines, first span, later spans, final span and return |
| SwiftUIWriter.WriteFirstSpan | Sources/owowgenerate-ios/Writers/SwiftUICodeWriter.swift:118-127 | the format lines, the first object placeholder's guard, the fixed comment and the first span |
| SwiftUIWriter.WriteLaterSpans | Sources/owowgenerate-ios/Writers/SwiftUICodeWriter.swift:129-142 | the loop over the placeholders writes a guard and a span for each object placeholder after the first |
| SwiftUIWriter.LaterSpansSnoc | Sources/owowgenerate-ios/Writers/SwiftUICodeWriter.swift:132-141 | one more placeholder adds its guard and span exactly when it is an object after the first |
| SwiftUIWriter.WriteSpan | Sources/owowgenerate-ios/Writers/SwiftUICodeWriter.swift:133-140 | one object placeholder's guard and span line |
| SwiftUIWriter.WriteGuard | Sources/owowgenerate-ios/Writers/SwiftUICodeWriter.swift:136-138 | the guard that finds a marker or stops with `fatalError` |
| TranslationRewriting.Orphans | Sources/owowgenerate-ios/Writers/TranslationFileRewriter.swift:21 | the keys of a secondary file that the primary lacks, exactly |
| TranslationRewriting.OrphanReportsExact | Sources/owowgenerate-ios/Writers/TranslationFileRewriter.swift:21-30 | one report per orphan key, on the line after its entry's, in that file, and nothing else |
| TranslationRewriting.InitialFiles | Sources/owowgenerate-ios/Writers/TranslationFileRewriter.swift:12-13 | one file per secondary path, with that path and an empty buffer |
| TranslationRewriting.ReportsIffOrphan | Sources/owowgenerate-ios/Writers/TranslationFileRewriter.swift:21-30 | something is reported exactly when some secondary has an orphan key |
| TranslationRewriting.CheckStep | Sources/owowgenerate-ios/Writers/TranslationFileRewriter.swift:12-33 | one more secondary checked: the error flag and the reports grow by that file's |
| TranslationRewriting.CheckFile | Sources/owowgenerate-ios/Writers/TranslationFileRewriter.swift:12-33 | one secondary parsed with an empty buffer; error exactly when it has an orphan key; the reports are exactly its orphan reports |
| TranslationRewriting.ReportOrphans | Sources/owowgenerate-ios/Writers/TranslationFileRewriter.swift:21-30 | over the keys in any order: the error flag is set exactly when a key is missing from the primary, and the reports are exactly those keys' reports, each on the line after its entry |
| TranslationRewriting.FanOut | Sources/owowgenerate-ios/Writers/TranslationFileRewriter.swift:45-72 | every secondary buffer gains one piece for the line; paths and parsed collections stay as they were |
| TranslationRewriting.LineResults | Sources/owowgenerate-ios/Writers/TranslationFileRewriter.swift:42-43 | one classification per primary line |
| TranslationRewriting.DropLeadingEmpty | Sources/owowgenerate-ios/Writers/TranslationFileRewriter.swift:47-51 | what remains starts with a non-empty piece, or is empty |
| TranslationRewriting.RewrittenTextJoins | Sources/owowgenerate-ios/Writers/TranslationFileRewriter.swift:46-51 | a buffer is its pieces joined by newlines, with leading empty pieces gone |
| TranslationRewriting.OneLinePerPrimaryLine | Sources/owowgenerate-ios/Writers/TranslationFileRewriter.swift:42-73 | when the first piece is not empty and none spans lines, the rewritten file has exactly one line per primary line, in order |
| TranslationRewriting.TranslatedEntryKept | Sources/owowgenerate-ios/Writers/TranslationFileRewriter.swift:66-67 | a key the secondary has becomes `"key" = ` and a literal that reads back as the secondary's translation |
| TranslationRewriting.MissingEntryPlaceholder | Sources/owowgenerate-ios/Writers/TranslationFileRewriter.swift:68-69 | a key the secondary lacks becomes an editor placeholder around the primary's value, or "Translated text" |
| TranslationRewriting.CommentAndUnrecognizedPieces | Sources/owowgenerate-ios/Writers/TranslationFileRewriter.swift:60-64 | comment lines become `/// ` and their text; unrecognized lines are copied verbatim |
| TranslationRewriting.RewriteTranslationFiles | Sources/owowgenerate-ios/Writers/TranslationFileRewriter.swift:3-78 | aborts exactly when some secondary has a key the primary lacks, reporting exactly those keys; otherwise every secondary's buffer is its rewritten text and its path and collection are kept |

## Left out

- File I/O: `Data(contentsOf:)`, `PropertyListDecoder` and the UTF-8/UTF-16 decoding are not modelled. The text of a strings file and its decoded key–value dictionary are inputs (`StringsFileInput`, and the `input`/`pairs` parameters of the parser).
- Printing and exiting: `print`, `exit(1)` and `write(toFile:)` are not modelled. The rewrite returns `Aborted` with its diagnostics, or `Rewritten` with the buffers to be written.
- `Configuration.load` and the JSON decoding of the configuration are not modelled; a `Config` value is given.
- `main.swift`, `Package.swift` and `Utils/String+writeIfNeeded.swift` are not part of this model.
- `camelCase(from:upper:)` and `swiftIdentifier` are not among the modelled files. They are passed in as the two functions of a `Naming` value and assumed to be nothing in particular.
- Swift compares and splits strings by `Character` (grapheme cluster); the model works on single characters. Line splitting follows Swift for the one cluster that matters there: "\r\n" is one `Character`, so `FileLines` (used by `StringsModel.StringsParser.Parse`, `StringsModel.ParseStringsFile` and `TranslationRewriting.RewriteTranslationFiles`) and the doc-comment split of `SwiftCodeWriting.SwiftCodeWriter.AddDocComment` do not split at a line feed that follows a carriage return. Other clusters are not modelled: a combining mark after a `"` or `/`, which Swift's `hasPrefix` would see as part of that `Character`, is treated as a separate character.
- `trimmingCharacters`, `lowercased` and `capitalized` are modelled over ASCII: only ASCII blanks are trimmed and only ASCII letters change case. For `capitalized`, the cased characters are the ASCII letters and the case-ignorable ones are the ASCII characters of Unicode's `Case_Ignorable` property (`'`, `.`, `:`, `^`, `` ` ``).
- `withIndentation` and `inBlock` take closures. Each is split into an opening and a closing method that callers call around the body.
- `try!`, `!` and `fatalError` are preconditions, not behaviour. Readable files (`LineParsable`, `AllParsable`) are required. At least one file is required for the rewrite. Every orphan key must be found by the line parser (`OrphansFound`). The concatenation variant requires an object placeholder.
- `StringsModel.StringsParser.ParseLine`: `assert(value != nil)` is not a precondition. Release builds drop it, and the model keeps a missing value as `None`, as the rewriter's `"Translated text"` fallback expects.
- `TranslationRewriting.RewriteTranslationFiles`: each report carries the path as given, not the absolute path `URL(fileURLWithPath:).path` would make.
- `TranslationRewriting.RewriteTranslationFiles`: the orphan loop walks a dictionary, whose key order is unspecified, so reports are stated as a set and not in order.
- `TranslationRewriting.RewriteTranslationFiles`: the `<#.+#>` check on a buffer only prints an empty line, so it is not modelled.
- `TranslationRewriting.TranslatedEntryKept`: stated only for translations without a backslash, because `makeStringLiteral` does not escape backslashes (`SwiftCodeWriting.StringLiteralNotInjective`).
- `SwiftCodeWriting.StringLiteralRoundTrip`: stated only for texts without a backslash, for the same reason.
- `PlaceholderTypes.PlaceholdersFromFormat`: the regular expression is a hand-written scanner. Text is `char` sequences, not UTF-16 units. `Int(pos)` is an unbounded integer, so a huge position does not become `nil`.
- The `ParserError` cases other than `invalidPlaceholder`, and the message texts of all cases, are not modelled.
- `makeSwiftUICode(strings:)` with one argument, which `main.swift` calls, is not among the modelled files; only the two-argument `makeSwiftUICode(strings:isForLibrary:)` is modelled.
- `SwiftCodeWriter.makeStringLiteral` is an instance method in one file and called as a static function in the writers. It is modelled once, as the function `MakeStringLiteral`.

## Findings

| source | as written | input that shows it | evidently intended | confidence | as-written member | corrected member |
|---|---|---|---|---|---|---|
| Sources/owowgenerate-ios/Writers/SwiftUICodeWriter.swift:129-140 | `lastCodeGeneratedPlaceholderNumber` is a `let` fixed to the first object placeholder. Every later span therefore starts at the end of the first marker. | three object placeholders, formatted `aXbYcZd` with texts F, G, H: the splice gives `aFbGbYcHd` | each span starts at the end of the previous object placeholder's marker, giving `aFbGcHd` | not executed | SwiftUIWriter.AsWrittenSpliceRepeatsText | SwiftUIWriter.IntendedSpliceCorrect |

The generator is modelled as written. `SwiftUIWriter.ConcatenationSpans` proves that the emitted spans follow `AsWrittenPlan`. `SwiftUIWriter.IntendedSpliceCorrect` proves that the intended plan, `IntendedPlan`, reproduces the string formatted with the caller's texts. `SwiftUIWriter.AsWrittenIntendedUpToTwo` shows that the two plans agree for one or two object placeholders, so the defect only shows with three or more.
