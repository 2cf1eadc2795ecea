/**
 * Writing a directive back as a chart line, and the round trip
 * `Classify(FormatLine(d)) == d`; then the decoder on a few concrete charts.
 */
module BmsFormat {
  import opened Wrappers
  import opened Text
  import opened Numbers
  import opened ChartModel
  import opened BmsParser
  import opened BmsEvents
  import opened BmsProperties

  /** The directives a single chart line can spell out exactly. */
  predicate Formattable(d: Directive) {
    match d
    case Meta(_, text) => text != [] && IsTrimmed(text)
    case Wav(id, file) => IsSampleId(id) && file != [] && IsTrimmed(file)
    case Channel(measure, channel, payload) =>
      0 <= measure < 1000 && 0 <= channel < 100 && IsTrimmed(payload)
    case Skip(_) => false
  }

  /** The chart line for a directive: `#TITLE text`, `#WAVxx file`, `#MMMCC:payload`. */
  function FormatLine(d: Directive): string
    requires Formattable(d)
  {
    match d
    case Meta(f, text) => Keyword(f) + text
    case Wav(id, file) => "#WAV" + id + " " + file
    case Channel(measure, channel, payload) =>
      "#" + Digits(measure, 3) + Digits(channel, 2) + ":" + payload
  }

  /** A line starting with '#' and a digit is no keyword and no `#WAV` line. */
  lemma DigitLineIsNoKeyword(t: string)
    requires |t| > 1 && IsDigit(t[1])
    ensures MatchKeyword(t) == None && !StartsWith(t, "#WAV")
  {
  }

  /** A formatted metadata line is trimmed and holds the text right after the keyword. */
  lemma MetaLineLayout(f: MetaField, text: string)
    requires Formattable(Meta(f, text))
    ensures var line := FormatLine(Meta(f, text));
      IsTrimmed(line) && StartsWith(line, Keyword(f)) && line[|Keyword(f)|..] == text
  {
    var line := Keyword(f) + text;
    assert line[..|Keyword(f)|] == Keyword(f);
    assert line[|Keyword(f)|..] == text;
    assert line[|line| - 1] == text[|text| - 1];
  }

  lemma ClassifyFormatMeta(f: MetaField, text: string)
    requires Formattable(Meta(f, text))
    ensures Classify(FormatLine(Meta(f, text))) == Meta(f, text)
  {
    var line := FormatLine(Meta(f, text));
    MetaLineLayout(f, text);
    TrimFixedPoint(line);
    MetaDispatch(line, f);
    TrimFixedPoint(text);
  }

  lemma ClassifyFormatWav(id: string, file: string)
    requires Formattable(Wav(id, file))
    ensures Classify(FormatLine(Wav(id, file))) == Wav(id, file)
  {
    var line := "#WAV" + id + " " + file;
    assert IsTrimmed(line);
    TrimFixedPoint(line);
    assert StartsWith(line, "#WAV");
    WavIsNoKeyword(line);
    assert line[4..6] == id;
    UpperSpec(id);
    assert line[7..] == file;
    TrimFixedPoint(file);
  }

  lemma ChannelLineOf(t: string, measure: int, channel: int)
    requires |t| >= 7 && 0 <= channel < ChannelCount
    requires ParseInt32(t[1..4]) == Some(measure) && ParseInt32(t[4..6]) == Some(channel)
    ensures ChannelLine(t) == Channel(measure, channel, Trim(t[7..]))
  {
  }

  lemma ClassifyChannelCandidate(t: string)
    requires IsTrimmed(t) && |t| >= 7 && t[0] == '#' && t[6] == ':'
    requires MatchKeyword(t) == None && !StartsWith(t, "#WAV")
    ensures Classify(t) == ChannelLine(t)
  {
    TrimFixedPoint(t);
  }

  /** The padded decimal digits of a small number parse back to it. */
  lemma ParsePadded(n: nat, w: nat)
    requires 1 <= w <= 3 && n < Pow10(w)
    ensures |Digits(n, w)| == w && ParseInt32(Digits(n, w)) == Some(n)
  {
    DigitsWidth(n, w);
    DigitsRoundTrip(n, w);
    ParseDigits(Digits(n, w));
  }

  /** Where the fields sit in a formatted channel-data line. */
  lemma ChannelLineLayout(measure: int, channel: int, payload: string)
    requires Formattable(Channel(measure, channel, payload))
    ensures var line := FormatLine(Channel(measure, channel, payload));
      |line| >= 7 && line[0] == '#' && line[6] == ':' && IsDigit(line[1])
      && line[1..4] == Digits(measure, 3) && line[4..6] == Digits(channel, 2)
      && line[7..] == payload && IsTrimmed(line)
  {
    var m := Digits(measure, 3);
    var ch := Digits(channel, 2);
    DigitsWidth(measure, 3);
    DigitsWidth(channel, 2);
    var line := "#" + m + ch + ":" + payload;
    assert line[1..4] == m && line[4..6] == ch && line[7..] == payload;
    assert line[1] == m[0];
  }

  lemma ClassifyFormatChannel(measure: int, channel: int, payload: string)
    requires Formattable(Channel(measure, channel, payload))
    ensures Classify(FormatLine(Channel(measure, channel, payload))) == Channel(measure, channel, payload)
  {
    var line := FormatLine(Channel(measure, channel, payload));
    ChannelLineLayout(measure, channel, payload);
    ParsePadded(measure, 3);
    ParsePadded(channel, 2);
    DigitLineIsNoKeyword(line);
    ClassifyChannelCandidate(line);
    ChannelLineOf(line, measure, channel);
    TrimFixedPoint(payload);
  }

  /** Every formattable directive is read back exactly from the line written for it. */
  lemma ClassifyFormat(d: Directive)
    requires Formattable(d)
    ensures Classify(FormatLine(d)) == d
  {
    match d
    case Meta(f, text) => ClassifyFormatMeta(f, text);
    case Wav(id, file) => ClassifyFormatWav(id, file);
    case Channel(measure, channel, payload) => ClassifyFormatChannel(measure, channel, payload);
  }

  lemma ExampleClassifyChannel()
    ensures Classify("#00311:0102") == Channel(3, 11, "0102")
  {
    var d := Channel(3, 11, "0102");
    assert Digits(3, 3) == "003";
    assert Digits(11, 2) == "11";
    assert FormatLine(d) == "#00311:0102";
    ClassifyFormat(d);
  }

  lemma ExamplePayload()
    ensures LineEvents(3, "0102") == [BeatData(3.0, "01"), BeatData(3.5, "02")]
  {
    UpperSpec("01");
    UpperSpec("02");
    assert "0102"[0..2] == "01" && "0102"[2..4] == "02";
    assert Token("0102", 0) == "01";
    assert Token("0102", 1) == "02";
    assert Position(3, 0, 2) == 3.0;
    assert Position(3, 1, 2) == 3.5;
    assert EventsUpTo(3, "0102", 1) == [BeatData(3.0, "01")];
  }

  /** `#00311:0102`: channel 11 gets sample 01 at measure 3.0 and sample 02 at 3.5. */
  lemma ExampleChannelLine(dir: string, parseFloat: string -> Option<real>)
    ensures Decode(dir, ["#00311:0102"], parseFloat).beat[11] ==
      [BeatData(3.0, "01"), BeatData(3.5, "02")]
  {
    var lines := ["#00311:0102"];
    ExampleClassifyChannel();
    ExamplePayload();
    assert lines[..0] == [];
    assert ChannelEvents(lines, 11) == LineEvents(3, "0102");
    RunBeat(Empty(dir), lines, 11, parseFloat);
  }

  /** A payload of empty slots only adds no events. */
  lemma ExampleEmptySlots(measure: int)
    ensures LineEvents(measure, "0000") == []
  {
    UpperSpec("00");
    assert "0000"[0..2] == "00" && "0000"[2..4] == "00";
    assert Token("0000", 0) == "00";
    assert Token("0000", 1) == "00";
    assert EventsUpTo(measure, "0000", 1) == [];
    assert EventsUpTo(measure, "0000", 2) == [];
  }

  /** Registering `#WAV01` twice keeps the file of the later line. */
  lemma ExampleWavTwice(dir: string, parseFloat: string -> Option<real>)
    ensures var w := Decode(dir, ["#WAV01 a.wav", "#WAV01 b.wav"], parseFloat).wavPath;
      "01" in w && w["01"] == "b.wav"
  {
    var lines := ["#WAV01 a.wav", "#WAV01 b.wav"];
    var d := Wav("01", "b.wav");
    assert IsTrimmed("b.wav");
    assert FormatLine(d) == lines[1];
    ClassifyFormat(d);
    RunWav(Empty(dir), lines, "01", parseFloat);
  }

  /**
   * A number that does not parse stores 0, overwriting an earlier value
   * (the C# `TryParse` out-parameter is written on failure too).
   */
  lemma ExampleBpmUnparseable(dir: string, parseFloat: string -> Option<real>)
    requires parseFloat("120") == Some(120.0) && parseFloat("abc") == None
    ensures Decode(dir, ["#BPM 120"], parseFloat).bpm == 120.0
    ensures Decode(dir, ["#BPM 120", "#BPM abc"], parseFloat).bpm == 0.0
  {
    var first := Meta(Bpm, "120");
    var second := Meta(Bpm, "abc");
    assert IsTrimmed("120") && IsTrimmed("abc");
    assert FormatLine(first) == "#BPM 120";
    assert FormatLine(second) == "#BPM abc";
    ClassifyFormat(first);
    ClassifyFormat(second);
    RunMeta(Empty(dir), ["#BPM 120"], Bpm, parseFloat);
    RunMeta(Empty(dir), ["#BPM 120", "#BPM abc"], Bpm, parseFloat);
  }

  /** A `#STAGEFILE` line, which the decoder does not read, leaves the chart as it is. */
  lemma ExampleStageFile(dir: string, parseFloat: string -> Option<real>)
    ensures Classify("#STAGEFILE bg.png") == Skip(Unrecognized)
    ensures Decode(dir, ["#STAGEFILE bg.png"], parseFloat) == Empty(dir)
  {
    var t := "#STAGEFILE bg.png";
    assert IsTrimmed(t);
    TrimFixedPoint(t);
    assert t[6] == 'F';
    assert t[..4][1] == 'S';
    forall f
      ensures !StartsWith(t, Keyword(f))
    {
      assert Keyword(f)[1] != 'S' && |Keyword(f)| <= |t|;
      assert t[..|Keyword(f)|][1] == 'S';
    }
    UnrecognizedIgnored(Empty(dir), t, parseFloat);
    assert [t][..0] == [];
  }
}
