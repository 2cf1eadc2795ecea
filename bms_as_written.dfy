/**
 * The decoder exactly as the C# source guards its channel-data branch, where two
 * inputs raise an exception that aborts the whole decode: a six-character line
 * that matches no metadata keyword (the guard admits length 6, then reads
 * character 6) and a channel number outside the 129 lists (read as `beat[channel]` when a note is appended).
 * `BmsParser.Classify` is the corrected classification the rest of the model uses.
 */
module BmsAsWritten {
  import opened Wrappers
  import opened Text
  import opened Numbers
  import opened ChartModel
  import opened BmsParser
  import opened BmsProperties
  import opened Seqs
  import BmsFormat

  /** One line's outcome in the source: a directive to apply, or an exception. */
  datatype Step = Continue(d: Directive) | Throws

  /** The channel branch as written: indexing `beat[channel]` fails for a bad channel with a note. */
  function ChannelAsWritten(t: string): (s: Step)
    requires |t| >= 7
    ensures s.Continue? ==> s.d == ChannelLine(t)
  {
    match (ParseInt32(t[1..4]), ParseInt32(t[4..6]))
    case (Some(measure), Some(channel)) =>
      if 0 <= channel < ChannelCount then Continue(Channel(measure, channel, Trim(t[7..])))
      else if LineEvents(measure, Trim(t[7..])) == [] then Continue(Skip(ChannelOutOfRange))
      else Throws
    case _ => Continue(Skip(BadHeader))
  }

  /** Line classification as written, with the guard `Length >= 6 && rawLine[6] == ':'`. */
  function ClassifyAsWritten(raw: string): (s: Step)
    ensures s.Continue? ==> s.d == Classify(raw)
  {
    var t := Trim(raw);
    var key := MatchKeyword(t);
    if t == [] then Continue(Skip(Blank))
    else if t[0] != '#' then Continue(Skip(NoMarker))
    else if key.Some? then Continue(Meta(key.value, MetaText(t, key.value)))
    else if StartsWith(t, "#WAV") && |t| >= 7 then Continue(Wav(Upper(t[4..6]), Trim(t[7..])))
    else if |t| >= 6 then
      if |t| == 6 then Throws
      else if t[6] == ':' then ChannelAsWritten(t)
      else Continue(Skip(Unrecognized))
    else Continue(Skip(Unrecognized))
  }

  /** The decode as written: `None` when some line throws and `onComplete` is never reached. */
  function RunAsWritten(c: ChartData, lines: seq<string>, parseFloat: string -> Option<real>): (r: Option<ChartData>)
    requires |c.beat| == ChannelCount
    ensures r.Some? ==> |r.value.beat| == ChannelCount
    decreases |lines|
  {
    if lines == [] then Some(c)
    else
      match RunAsWritten(c, lines[..|lines| - 1], parseFloat)
      case None => None
      case Some(prev) =>
        match ClassifyAsWritten(lines[|lines| - 1])
        case Throws => None
        case Continue(d) => Some(Apply(prev, d, parseFloat))
  }

  /** The decode as written completes exactly when no line throws, and then yields `Decode`. */
  function DecodeAsWritten(dir: string, lines: seq<string>, parseFloat: string -> Option<real>): (r: Option<ChartData>)
    ensures r.Some? <==> NoThrow(lines)
    ensures r.Some? ==> r.value == Decode(dir, lines, parseFloat)
  {
    RunAsWrittenSpec(Empty(dir), lines, parseFloat);
    RunAsWritten(Empty(dir), lines, parseFloat)
  }

  /** The source gets past line `raw` without an exception. */
  predicate Survives(raw: string) {
    !ClassifyAsWritten(raw).Throws?
  }

  /** No line of `lines` makes the source throw. */
  predicate NoThrow(lines: seq<string>) {
    AllFromEnd(lines, Survives)
  }

  /** The original finishes exactly when no line throws, and then yields the corrected chart. */
  lemma {:induction false} RunAsWrittenSpec(c: ChartData, lines: seq<string>, parseFloat: string -> Option<real>)
    requires |c.beat| == ChannelCount
    ensures RunAsWritten(c, lines, parseFloat).Some? <==> NoThrow(lines)
    ensures RunAsWritten(c, lines, parseFloat).Some? ==>
      RunAsWritten(c, lines, parseFloat).value == Run(c, lines, parseFloat)
    decreases |lines|
  {
    if lines != [] {
      var init := lines[..|lines| - 1];
      var x := lines[|lines| - 1];
      RunAsWrittenSpec(c, init, parseFloat);
      var step := ClassifyAsWritten(x);
      if RunAsWritten(c, init, parseFloat).Some? && step.Continue? {
        assert RunAsWritten(c, lines, parseFloat).value
          == Apply(Run(c, init, parseFloat), Classify(x), parseFloat);
      }
    }
  }

  /** `NoThrow` holds exactly when every single line survives. */
  lemma NoThrowSpec(lines: seq<string>)
    ensures NoThrow(lines) <==> forall i :: 0 <= i < |lines| ==> Survives(lines[i])
  {
    AllFromEndSpec(lines, Survives);
  }

  lemma TrimEmptyTitle()
    ensures Trim("#TITLE ") == "#TITLE"
  {
    assert SkipWhite("#TITLE ", 0) == 0;
    assert SkipWhiteBack("#TITLE ", 0, 7) == 6;
    assert "#TITLE "[0..6] == "#TITLE";
  }

  lemma ShortTitleIsNoKeyword(t: string)
    requires |t| == 6 && t[1] == 'T' && t[2] == 'I'
    ensures MatchKeyword(t) == None
  {
  }

  /** An empty title line `#TITLE ` trims to six characters and aborts the decode. */
  lemma EmptyTitleAborts(dir: string, parseFloat: string -> Option<real>)
    ensures ClassifyAsWritten("#TITLE ") == Throws
    ensures DecodeAsWritten(dir, ["#TITLE "], parseFloat) == None
    ensures Classify("#TITLE ") == Skip(Unrecognized)
    ensures Decode(dir, ["#TITLE "], parseFloat) == Empty(dir)
  {
    TrimEmptyTitle();
    ShortTitleIsNoKeyword("#TITLE");
    assert ["#TITLE "][..0] == [];
  }

  lemma ParseNegativeChannelLine()
    ensures ParseInt32("001") == Some(1) && ParseInt32("-1") == Some(-1)
    ensures LineEvents(1, "01") != []
  {
    assert Digits(1, 3) == "001";
    DigitsRoundTrip(1, 3);
    ParseDigits("001");
    ParseMinusOne();
    UpperSpec("01");
    assert "01"[0..2] == "01";
    assert Token("01", 0) == "01";
  }

  lemma ParseMinusOne()
    ensures ParseInt32("-1") == Some(-1)
  {
    assert "-1"[1..] == "1";
    ParseDigits("1");
    StripNoWhite("-1");
  }

  lemma NegativeChannelLine()
    ensures ChannelLine("#001-1:01") == Skip(ChannelOutOfRange)
    ensures ChannelAsWritten("#001-1:01") == Throws
  {
    var t := "#001-1:01";
    assert t[1..4] == "001" && t[4..6] == "-1" && t[7..] == "01";
    ParseNegativeChannelLine();
    assert IsTrimmed("01");
    TrimFixedPoint("01");
  }

  lemma NegativeChannelClassify()
    ensures ClassifyAsWritten("#001-1:01") == Throws
    ensures Classify("#001-1:01") == Skip(ChannelOutOfRange)
  {
    var t := "#001-1:01";
    assert IsTrimmed(t);
    TrimFixedPoint(t);
    BmsFormat.DigitLineIsNoKeyword(t);
    BmsFormat.ClassifyChannelCandidate(t);
    NegativeChannelLine();
  }

  /** A channel field of `-1` with a note aborts the decode; the corrected decoder skips the line. */
  lemma NegativeChannelAborts(dir: string, parseFloat: string -> Option<real>)
    ensures ClassifyAsWritten("#001-1:01") == Throws
    ensures DecodeAsWritten(dir, ["#001-1:01"], parseFloat) == None
    ensures Classify("#001-1:01") == Skip(ChannelOutOfRange)
    ensures Decode(dir, ["#001-1:01"], parseFloat) == Empty(dir)
  {
    NegativeChannelClassify();
    assert ["#001-1:01"][..0] == [];
  }

  /** Corrected: a six-character line that reaches the channel branch is skipped. */
  lemma SixCharLineSkipped(c: ChartData, raw: string, parseFloat: string -> Option<real>)
    requires |c.beat| == ChannelCount
    requires |Trim(raw)| == 6 && MatchKeyword(Trim(raw)) == None
    ensures Classify(raw).Skip?
    ensures ApplyLine(c, raw, parseFloat) == c
    ensures Trim(raw)[0] == '#' ==> ClassifyAsWritten(raw) == Throws
  {
  }
}
