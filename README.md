# BMS chart decoder

This project models the BMS chart decoder `BmsParser.Parse` and proves properties of the model. The decoder reads the lines of a BMS file once, in order, and builds a `ChartData`:

- It trims each line and skips lines that are empty or do not start with `#`.
- It tests the metadata keywords in a fixed order: `#TITLE `, `#ARTIST `, `#GENRE `, `#BPM `, `#PLAYER `, `#PLAYLEVEL `, `#RANK `, `#TOTAL `, `#DIFFICULTY `.
  - A string field stores the trimmed remainder of the line.
  - A numeric field stores the parsed remainder, or 0 when parsing fails.
- A `#WAVxx file` line registers sample `xx`. The id is upper-cased, and a later line for the same id replaces the earlier one.
- A channel-data line `#MMMCC:payload` splits its payload into two-character tokens. Each token other than `00` appends one event at position `MMM + i/n` to list `CC`, one of 129 per-channel lists.

The model has these modules:

| module | file | contents |
|---|---|---|
| `Wrappers` | `wrappers.dfy` | `Option` |
| `Seqs` | `seqs.dfy` | associativity of concatenation |
| `Text` | `text.dfy` | .NET `Trim` (the `Char.IsWhiteSpace` set), `StartsWith`, ASCII `ToUpper` |
| `Numbers` | `numbers.dfy` | `int.TryParse` with the default integer style: surrounding white space, an optional sign, decimal digits, the 32-bit range |
| `ChartModel` | `chart_data.dfy` | `BeatData`, `ChartData`, the empty chart and the well-formedness invariant |
| `BmsParser` | `bms_parser.dfy` | the decoder, in two forms (below) |
| `BmsEvents` | `bms_events.dfy` | what one payload contributes |
| `BmsProperties` | `bms_properties.dfy` | dispatch, the effect of one line, and what a whole decode computes |
| `BmsFormat` | `bms_format.dfy` | a line writer that the decoder reads back, plus worked examples |
| `BmsAsWritten` | `bms_as_written.dfy` | the two exceptions the source can raise (see Findings) |

`BmsParser` holds the decoder twice:

- **Functional specification.**
  - `Classify` decides which branch a line takes.
  - `Apply` performs that directive on a chart value.
  - `Decode` folds the lines from the empty chart.
- **Imperative version.** This follows the source's own form.
  - `ChartBuilder` is a class with the chart's fields, a `wavPath` map and a 129-element array of event lists, all updated in place.
  - `ProcessLine` is the loop body.
  - `AddEvents` is the inner payload loop.
  - `Parse` is the outer loop. It is proved to return `Decode` of its input.

`double.TryParse` is a function parameter `parseFloat`, so every result holds for any float parser. The directory that `Path.GetDirectoryName` would compute is an input `dir`.

## Model

| member | source | states |
|---|---|---|
| BmsParser.Parse | Assets/BmsParser.cs:8-78 | a fresh chart, then every line processed in order; the returned chart is `Decode(dir, lines)` |
| BmsParser.ChartBuilder.constructor | Assets/BmsParser.cs:10-17 | the builder starts as the empty chart: the given path, 129 empty lists, no samples, default fields |
| BmsParser.ChartBuilder.ProcessLine | Assets/BmsParser.cs:20-72 | one loop iteration changes the chart exactly as `ApplyLine` of that line does |
| BmsParser.ChartBuilder.SetField | Assets/BmsParser.cs:25-42 | a metadata directive writes only its own field: the text for strings, the parsed value or 0 for numbers |
| BmsParser.ChartBuilder.WavLine | Assets/BmsParser.cs:43-48 | a `#WAV` line maps the upper-cased characters 4-5 to the trimmed text from character 7 and changes nothing else |
| BmsParser.ChartBuilder.ChannelData | Assets/BmsParser.cs:49-71 | a channel-data line has the effect of `ChannelLine`: it appends the payload's events when the measure and channel parse and the channel is in range, else it changes nothing |
| BmsParser.ChartBuilder.AddEvents | Assets/BmsParser.cs:54-69 | the token loop appends exactly `LineEvents(measure, data)` to `beat[channel]` and leaves every other list unchanged |
| BmsParser.Classify | Assets/BmsParser.cs:22-49 | classified metadata text and `#WAV` file names are trimmed, sample ids are two upper-case characters, a channel directive names one of the 129 lists |
| BmsParser.MatchKeyword | Assets/BmsParser.cs:25-42 | the first keyword in the decoder's order that the line starts with; `BmsProperties.MatchKeywordSpec` proves it is found exactly when the line starts with it |
| BmsParser.MetaText | Assets/BmsParser.cs:26-42 | a metadata value is the remainder after the keyword, trimmed |
| BmsParser.MetaEffect | Assets/BmsParser.cs:25-42 | `#TITLE`, `#ARTIST` and `#GENRE` store text, `#BPM` and `#TOTAL` a real, the rest an integer; a string field stores the text itself; a numeric field stores the parsed value when the text parses and 0 when it does not; an integer is within 32 bits |
| BmsParser.ApplyLine | Assets/BmsParser.cs:20-72 | one line keeps the 129 lists and the path; `BmsProperties.MetaLineEffect`, `WavLineEffect`, `ChannelLineEffect`, `UnrecognizedIgnored` and `NonDirectiveIgnored` give its effect branch by branch |
| BmsParser.Run | Assets/BmsParser.cs:20-72 | the lines in order keep the 129 lists and the path; `BmsProperties.RunMeta`, `RunWav` and `RunBeat` give the resulting fields, samples and lists |
| BmsParser.Decode | Assets/BmsParser.cs:8-78 | the decoded chart has 129 lists and the input directory as its path |
| BmsParser.Position | Assets/BmsParser.cs:62 | slot `i` of `n` sits at `measure + i/n`; `BmsEvents.PositionBounds` and `PositionIncreasing` prove it lies in its measure and grows with `i` |
| BmsParser.EventsUpTo | Assets/BmsParser.cs:57-68 | the events of the first `k` tokens, in token order; `BmsEvents.EventsCount`, `EventsSound`, `EventsComplete` and `EventsIncreasing` characterise them |
| BmsParser.LineEvents | Assets/BmsParser.cs:54-68 | the events of all `L / 2` tokens of a payload; `BmsEvents.LineEventsSpec` characterises them |
| BmsParser.ChannelLine | Assets/BmsParser.cs:49-53 | a channel-data line yields either a directive for a channel in 0..128 with a trimmed payload, or a skip |
| BmsParser.Apply | Assets/BmsParser.cs:25-69 | a directive changes only its own part of the chart: the field, the one `wavPath` key, or the one channel list, which gains the line's events at its end; a skip changes nothing |
| BmsParser.SetMeta | Assets/BmsParser.cs:25-42 | a stored metadata value replaces the field's earlier value and leaves every other part alone |
| BmsParser.Token | Assets/BmsParser.cs:59 | each payload token is a two-character upper-case sample id |
| Numbers.ParseInt32 | Assets/BmsParser.cs:51-52 | a parsed integer lies in the 32-bit range; `Numbers.ParseSound` and `ParseRejectsJunk` say which strings parse |
| Numbers.ParseSound | Assets/BmsParser.cs:34-52 | a string parses only if, with number white space stripped from its ends, it is an optional sign and one or more digits, and the result is the digits' value with that sign |
| Numbers.ParseRejectsJunk | Assets/BmsParser.cs:34-52 | a string holding any character other than number white space, a sign or a digit does not parse, so the field gets 0 or the header adds nothing |
| Numbers.StripKeeps | Assets/BmsParser.cs:34-52 | stripping number white space from the ends keeps every other character |
| Numbers.ParseShow | Assets/BmsParser.cs:34-42 | every 32-bit integer written in decimal is parsed back to itself |
| Numbers.ParseIgnoresPadding | Assets/BmsParser.cs:34-42 | leading or trailing number white space does not change the parse |
| Numbers.ParseDigits | Assets/BmsParser.cs:51-52 | a digit string within the 32-bit range parses to its decimal value |
| Numbers.DigitsRoundTrip | Assets/BmsParser.cs:51-52 | the value of the padded decimal digits of `n` is `n` |
| Text.Trim | Assets/BmsParser.cs:22 | the trimmed line has no white space at either end and is no longer than the input |
| Text.TrimFixedPoint | Assets/BmsParser.cs:22 | trimming leaves a string unchanged exactly when it has no white space at its ends |
| Text.TrimUnique | Assets/BmsParser.cs:22 | trimming removes exactly the surrounding white space: white space, then a trimmed middle, then white space trims to that middle |
| Text.TrimIdempotent | Assets/BmsParser.cs:22 | trimming twice is the same as trimming once |
| Text.Upper | Assets/BmsParser.cs:45-59 | upper-casing keeps the length and maps each character by ASCII `ToUpper` |
| Text.StartsWith | Assets/BmsParser.cs:25-43 | ordinal prefix test; `Text.StartsWithSpec` proves it holds exactly when the string is the prefix followed by something |
| Text.StartsWithSpec | Assets/BmsParser.cs:25-43 | a string starts with a prefix if and only if it is that prefix followed by some rest |
| Text.UpperSpec | Assets/BmsParser.cs:45 | upper-casing leaves no lower-case letter, fixes exactly the strings that have none, and is idempotent |
| ChartModel.Empty | Assets/BmsParser.cs:10-17 | the initial chart is well formed |
| BmsEvents.LineEventsSpec | Assets/BmsParser.cs:54-68 | for L / 2 tokens there is one event per non-`00` token and no other, so at most L / 2; each event is a note inside its measure, and positions strictly increase |
| BmsEvents.EventsCount | Assets/BmsParser.cs:57-61 | the number of events equals the number of non-`00` slots and is at most the number of slots |
| BmsEvents.EventsSound | Assets/BmsParser.cs:59-66 | every event is the one produced by some non-`00` slot |
| BmsEvents.EventsComplete | Assets/BmsParser.cs:59-66 | every non-`00` slot produces its event |
| BmsEvents.EventsInMeasure | Assets/BmsParser.cs:59-66 | every event names a non-`00` upper-case sample and lies in [measure, measure + 1) |
| BmsEvents.EventsBefore | Assets/BmsParser.cs:57-66 | the events of the first k tokens lie before the position of every later slot |
| BmsEvents.EventsIncreasing | Assets/BmsParser.cs:57-66 | events are appended in strictly increasing position |
| BmsEvents.PositionBounds | Assets/BmsParser.cs:62 | `measure + i/n` lies in [measure, measure + 1) |
| BmsEvents.PositionIncreasing | Assets/BmsParser.cs:62 | a later slot of the same measure has a strictly later position |
| BmsEvents.NoteSlotsStep | Assets/BmsParser.cs:59-61 | each further token adds one slot if it is not `00` and none otherwise |
| BmsEvents.OddTailIgnored | Assets/BmsParser.cs:55 | an odd trailing payload character is ignored |
| BmsEvents.EventsIgnoreTail | Assets/BmsParser.cs:55-59 | no token before the last full pair reads the odd trailing character |
| BmsProperties.KeywordsPrefixFree | Assets/BmsParser.cs:25-42 | no line starts with two different metadata keywords |
| BmsProperties.MatchKeywordSpec | Assets/BmsParser.cs:25-42 | the keyword search returns `f` exactly when the line starts with `f`'s keyword |
| BmsProperties.MetaDispatch | Assets/BmsParser.cs:25-42 | a line is a directive for field `f` if and only if its trimmed text starts with `f`'s keyword, and then the value is the trimmed remainder |
| BmsProperties.WavIsNoKeyword | Assets/BmsParser.cs:25-43 | a `#WAV` line matches no metadata keyword, so it reaches the `#WAV` branch |
| BmsProperties.MetaLineEffect | Assets/BmsParser.cs:25-42 | a metadata line stores the effect of its remainder in its field and keeps every other field, `wavPath` and every list |
| BmsProperties.ClassifyWavLine | Assets/BmsParser.cs:43-46 | a `#WAV` line of at least 7 characters is a registration of the upper-cased id and the trimmed file |
| BmsProperties.WavLineEffect | Assets/BmsParser.cs:43-48 | a `#WAV` line sets exactly one key of `wavPath` and changes nothing else |
| BmsProperties.ClassifyChannelLine | Assets/BmsParser.cs:49 | a line with no keyword and no `#WAV` prefix, with `:` at index 6, is read as channel data |
| BmsProperties.ChannelLineEffect | Assets/BmsParser.cs:49-71 | a channel-data line appends its events to list CC when MMM and CC parse and CC is in range, and otherwise changes nothing |
| BmsProperties.ApplyChannelLine | Assets/BmsParser.cs:51-63 | the channel directive's effect, case by case on the two parses |
| BmsProperties.UnrecognizedIgnored | Assets/BmsParser.cs:23-71 | a `#` line that names no keyword, is no `#WAV` line of at least 7 characters and has no `:` at index 6 is skipped and changes nothing |
| BmsProperties.NonDirectiveIgnored | Assets/BmsParser.cs:22-23 | a line that is empty after trimming or does not start with `#` changes nothing |
| BmsProperties.ApplyKeepsWellFormed | Assets/BmsParser.cs:25-69 | every directive keeps the chart well formed |
| BmsProperties.AppendNotes | Assets/BmsParser.cs:63 | appending notes to one list keeps the chart well formed |
| BmsProperties.RunStep | Assets/BmsParser.cs:20-72 | a decode processes its last line after all the others |
| BmsProperties.RunSplit | Assets/BmsParser.cs:19-75 | decoding `a + b` is decoding `b` from the chart `a` produced, so pausing between lines changes nothing |
| BmsProperties.RunSplitStep | Assets/BmsParser.cs:20-72 | the inductive step of `RunSplit` |
| BmsProperties.SkippedLineRemovable | Assets/BmsParser.cs:20-49 | deleting a skipped line from anywhere in the input leaves the decoded chart unchanged |
| BmsProperties.RunWellFormed | Assets/BmsParser.cs:20-72 | whatever the lines, a decode keeps the chart well formed |
| BmsProperties.DecodeWellFormed | Assets/BmsParser.cs:10-72 | the decoded chart keeps the input directory and has 129 lists, upper-case two-character sample ids and only non-`00` events |
| BmsProperties.DecodeNoLines | Assets/BmsParser.cs:10-17 | no lines give the empty chart: 129 empty lists, no samples, default fields and the given path |
| BmsProperties.RunMeta | Assets/BmsParser.cs:25-42 | each metadata field holds what its last directive stored, or its earlier value when there is none |
| BmsProperties.RunWav | Assets/BmsParser.cs:43-48 | each sample id maps to the file of its last registration; other keys keep their entries |
| BmsProperties.RunBeat | Assets/BmsParser.cs:49-69 | each list is its earlier contents followed by the events of that channel's lines, in line order |
| BmsProperties.EventsOnlyAppended | Assets/BmsParser.cs:63 | later lines never reorder or remove events already in a list |
| BmsFormat.ClassifyFormat | Assets/BmsParser.cs:22-55 | every directive expressible as a line is read back exactly from the line written for it |
| BmsFormat.ClassifyFormatMeta | Assets/BmsParser.cs:25-42 | a written metadata line is read back as the same directive |
| BmsFormat.ClassifyFormatWav | Assets/BmsParser.cs:43-48 | a written `#WAV` line is read back as the same registration |
| BmsFormat.ClassifyFormatChannel | Assets/BmsParser.cs:49-55 | a written channel-data line is read back as the same measure, channel and payload |
| BmsFormat.MetaLineLayout | Assets/BmsParser.cs:25-42 | a written metadata line is trimmed and holds the text right after the keyword |
| BmsFormat.ChannelLineLayout | Assets/BmsParser.cs:49-54 | the measure, channel and payload sit at columns 1-3, 4-5 and 7 on of a written channel-data line |
| BmsFormat.DigitLineIsNoKeyword | Assets/BmsParser.cs:25-49 | a line whose second character is a digit matches no keyword and no `#WAV` prefix |
| BmsFormat.ChannelLineOf | Assets/BmsParser.cs:51-54 | when both header fields parse and the channel is in range, the line is that channel directive |
| BmsFormat.ClassifyChannelCandidate | Assets/BmsParser.cs:49 | a trimmed line with `#`, `:` at index 6, no keyword and no `#WAV` prefix takes the channel branch |
| BmsFormat.ParsePadded | Assets/BmsParser.cs:51-52 | a zero-padded number of up to three digits parses back to itself |
| BmsFormat.ExampleClassifyChannel | Assets/BmsParser.cs:49-54 | `#00311:0102` is channel data for measure 3, channel 11, payload `0102` |
| BmsFormat.ExamplePayload | Assets/BmsParser.cs:57-66 | payload `0102` in measure 3 gives sample 01 at 3.0 and sample 02 at 3.5 |
| BmsFormat.ExampleChannelLine | Assets/BmsParser.cs:49-69 | decoding `#00311:0102` fills list 11 with those two events |
| BmsFormat.ExampleEmptySlots | Assets/BmsParser.cs:60 | a payload of `00` tokens only adds no events |
| BmsFormat.ExampleWavTwice | Assets/BmsParser.cs:43-48 | registering `#WAV01` twice keeps the later file |
| BmsFormat.ExampleStageFile | Assets/BmsParser.cs:23-71 | a `#STAGEFILE` line is unrecognised and decodes to the empty chart |
| BmsFormat.ExampleBpmUnparseable | Assets/BmsParser.cs:31-32 | an unparseable `#BPM` value overwrites an earlier BPM with 0 |
| BmsAsWritten.ChannelAsWritten | Assets/BmsParser.cs:49-63 | the channel branch as written agrees with `ChannelLine` whenever it does not throw |
| BmsAsWritten.ClassifyAsWritten | Assets/BmsParser.cs:22-49 | the classification as written agrees with `Classify` whenever it does not throw |
| BmsAsWritten.RunAsWritten | Assets/BmsParser.cs:20-77 | the decode as written keeps 129 lists whenever it completes |
| BmsAsWritten.DecodeAsWritten | Assets/BmsParser.cs:8-78 | the decode as written completes exactly when no line throws, and then it yields the corrected `Decode` |
| BmsAsWritten.NoThrow | Assets/BmsParser.cs:20-72 | the source survives every line; `BmsAsWritten.NoThrowSpec` proves that this means each single line survives |
| BmsAsWritten.NoThrowSpec | Assets/BmsParser.cs:20-72 | the whole input survives if and only if each of its lines does |
| BmsAsWritten.RunAsWrittenSpec | Assets/BmsParser.cs:20-77 | the source completes exactly when no line throws, and then it yields the corrected decoder's chart |
| BmsAsWritten.EmptyTitleAborts | Assets/BmsParser.cs:25-49 | `#TITLE ` trims to six characters, throws at line 49, and aborts the whole decode; the corrected decoder skips the line |
| BmsAsWritten.NegativeChannelAborts | Assets/BmsParser.cs:49-63 | `#001-1:01` parses channel -1 and throws at line 63; the corrected decoder skips the line |
| BmsAsWritten.NegativeChannelLine | Assets/BmsParser.cs:51-63 | the negative channel case, for the channel branch alone |
| BmsAsWritten.SixCharLineSkipped | Assets/BmsParser.cs:49 | in the corrected decoder, a six-character line that reaches the channel test is skipped without change; the source throws on it |

## Left out

- The coroutine's yield every 50 lines and the `onComplete` callback (Assets/BmsParser.cs:19, 73-74, 77) are host scheduling and do not change the chart. `Parse` returns the chart instead.
- `Path.GetDirectoryName` (Assets/BmsParser.cs:12) is a library call. Its result is the input `dir`.
- `double.TryParse` is the parameter `parseFloat`. Culture-dependent float syntax, rounding, NaN and infinity are not modelled.
- The `double` arithmetic of `measure + (double)i / divisions` is modelled as exact real arithmetic, not IEEE rounding.
- `ToUpper` and `StartsWith` are culture-sensitive in .NET. The model uses ordinal comparison and ASCII upper-casing.
- `Numbers.ParseInt32`: does not model `int.TryParse` accepting trailing NUL characters, or culture-specific sign symbols.
- Text.Trim, BmsParser.Classify, BmsParser.ChannelLine, BmsParser.Token: a Dafny string is a sequence of Unicode scalar values, while the C# `Length`, `Substring`, indexing and `data.Length / 2` (Assets/BmsParser.cs:43-59) count UTF-16 code units. A line with a character outside the Basic Multilingual Plane is therefore split at different columns. For example, `#00111:😀` adds one event in C# (the surrogate pair is one token) and none in the model, and `#WAV😀 a.wav` registers a different id and file.
- The model does not model a `null` line or a `null` `lines` sequence.
- The other files of the repository are not part of this model: chart and sound loading, FMOD audio, settings, UI, gameplay, and the unused `ChartParser` with its stale `ChartData`. `ChartData` here follows Assets/ChartData.cs:5-27.
- The string fields `title`, `artist` and `genre` start as `null` in the source. They are modelled as `Option<string>` with `None`.
- Three behaviours of the code that a reader might not expect, which the model follows:
  - a failed numeric parse stores 0, because `TryParse` writes 0 to its `out` argument (Assets/BmsParser.cs:31-42);
  - `#WAV00` is registered like any other id (Assets/BmsParser.cs:43-48);
  - a negative measure such as `-01`, which `int.TryParse` accepts, gives events at negative positions (Assets/BmsParser.cs:51).

## Findings

| source | as written | input that shows it | evidently intended | confidence | as-written member | corrected member |
|---|---|---|---|---|---|---|
| Assets/BmsParser.cs:49 | `rawLine.Length >= 6 && rawLine[6] == ':'` reads index 6 of a six-character line, which throws `IndexOutOfRangeException` and ends the decode before `onComplete` | `#TITLE ` (trims to `#TITLE`), `#WAV01` | the line is too short for channel data and is skipped (length at least 7) | not executed | BmsAsWritten.EmptyTitleAborts | BmsAsWritten.SixCharLineSkipped |
| Assets/BmsParser.cs:52, 63 | the channel field is any `int.TryParse` result, and `chart.beat[channel]` throws for a channel outside 0..128 once a non-`00` token is seen | `#001-1:01` | a line naming no existing channel list is skipped | not executed | BmsAsWritten.NegativeChannelAborts | BmsParser.ChannelLine |
