/**
 * The BMS chart decoder. `Classify` says what one line asks for, `Apply`
 * performs it on a chart value, and `Decode` folds the lines in order.
 * `ChartBuilder` and `Parse` are the imperative decoder, proved equal to `Decode`.
 */
module BmsParser {
  import opened Wrappers
  import opened Text
  import opened Numbers
  import opened ChartModel
  import opened Seqs

  /** The metadata directives, listed in the order the decoder tests them. */
  datatype MetaField = Title | Artist | Genre | Bpm | Player | PlayLevel | Rank | Total | Difficulty

  /** The exact prefix that introduces each metadata directive. */
  function Keyword(f: MetaField): string {
    match f
    case Title => "#TITLE "
    case Artist => "#ARTIST "
    case Genre => "#GENRE "
    case Bpm => "#BPM "
    case Player => "#PLAYER "
    case PlayLevel => "#PLAYLEVEL "
    case Rank => "#RANK "
    case Total => "#TOTAL "
    case Difficulty => "#DIFFICULTY "
  }

  /** Why a line leaves the chart as it is. */
  datatype SkipReason = Blank | NoMarker | Unrecognized | BadHeader | ChannelOutOfRange

  /** What one line asks of the chart. */
  datatype Directive =
    | Meta(field: MetaField, text: string)
    | Wav(id: string, file: string)
    | Channel(measure: int, channel: int, payload: string)
    | Skip(reason: SkipReason)

  /** The trimmed remainder of a metadata line after its keyword. */
  function MetaText(t: string, f: MetaField): (r: string)
    requires StartsWith(t, Keyword(f))
    ensures IsTrimmed(r)
  {
    Trim(t[|Keyword(f)|..])
  }

  /**
   * `#MMMCC:payload`: the measure is characters 1-3, the channel characters 4-5.
   * A channel outside the 129 lists is skipped rather than indexed.
   */
  function ChannelLine(t: string): (d: Directive)
    requires |t| >= 7
    ensures d.Channel? || d.Skip?
    ensures d.Channel? ==> 0 <= d.channel < ChannelCount && IsTrimmed(d.payload)
  {
    match (ParseInt32(t[1..4]), ParseInt32(t[4..6]))
    case (Some(measure), Some(channel)) =>
      if 0 <= channel < ChannelCount then Channel(measure, channel, Trim(t[7..]))
      else Skip(ChannelOutOfRange)
    case _ => Skip(BadHeader)
  }

  /** The first metadata keyword, in the decoder's order, that `t` starts with. */
  function MatchKeyword(t: string): (r: Option<MetaField>)
    ensures r.Some? ==> StartsWith(t, Keyword(r.value))
  {
    if StartsWith(t, Keyword(Title)) then Some(Title)
    else if StartsWith(t, Keyword(Artist)) then Some(Artist)
    else if StartsWith(t, Keyword(Genre)) then Some(Genre)
    else if StartsWith(t, Keyword(Bpm)) then Some(Bpm)
    else if StartsWith(t, Keyword(Player)) then Some(Player)
    else if StartsWith(t, Keyword(PlayLevel)) then Some(PlayLevel)
    else if StartsWith(t, Keyword(Rank)) then Some(Rank)
    else if StartsWith(t, Keyword(Total)) then Some(Total)
    else if StartsWith(t, Keyword(Difficulty)) then Some(Difficulty)
    else None
  }

  /** The branch a line takes, tested in the decoder's order on the trimmed line. */
  function Classify(raw: string): (d: Directive)
    ensures d.Meta? ==> IsTrimmed(d.text)
    ensures d.Wav? ==> IsSampleId(d.id) && IsTrimmed(d.file)
    ensures d.Channel? ==> 0 <= d.channel < ChannelCount && IsTrimmed(d.payload)
  {
    var t := Trim(raw);
    var key := MatchKeyword(t);
    if t == [] then Skip(Blank)
    else if t[0] != '#' then Skip(NoMarker)
    else if key.Some? then Meta(key.value, MetaText(t, key.value))
    else if StartsWith(t, "#WAV") && |t| >= 7 then Wav(Upper(t[4..6]), Trim(t[7..]))
    else if |t| >= 7 && t[6] == ':' then ChannelLine(t)
    else Skip(Unrecognized)
  }

  /** The `i`-th two-character token of a payload, upper-cased. */
  function Token(data: string, i: nat): (tok: string)
    requires 2 * i + 2 <= |data|
    ensures IsSampleId(tok)
  {
    Upper(data[2 * i..2 * i + 2])
  }

  /** Slot `i` of `n` equal slots of a measure. */
  function Position(measure: int, i: nat, n: nat): real
    requires i < n
  {
    measure as real + (i as real) / (n as real)
  }

  /** The events of the first `k` tokens of a payload of `|data| / 2` tokens. */
  function EventsUpTo(measure: int, data: string, k: nat): seq<BeatData>
    requires k <= |data| / 2
  {
    if k == 0 then []
    else
      var prev := EventsUpTo(measure, data, k - 1);
      var tok := Token(data, k - 1);
      if tok != "00" then prev + [BeatData(Position(measure, k - 1, |data| / 2), tok)] else prev
  }

  /** The events one channel-data line contributes. */
  function LineEvents(measure: int, data: string): seq<BeatData> {
    EventsUpTo(measure, data, |data| / 2)
  }

  /** A metadata field's value, tagged with its type. */
  datatype MetaValue = StrValue(s: Option<string>) | IntValue(i: int) | RealValue(x: real)

  function GetMeta(c: ChartData, f: MetaField): MetaValue {
    match f
    case Title => StrValue(c.title)
    case Artist => StrValue(c.artist)
    case Genre => StrValue(c.genre)
    case Bpm => RealValue(c.bpm)
    case Player => IntValue(c.player)
    case PlayLevel => IntValue(c.playlevel)
    case Rank => IntValue(c.rank)
    case Total => RealValue(c.total)
    case Difficulty => IntValue(c.difficulty)
  }

  /**
   * The value a metadata directive stores: the text itself for a string field,
   * else the parsed number, or 0 when parsing fails (`TryParse` writes 0 then).
   */
  function MetaEffect(f: MetaField, text: string, parseFloat: string -> Option<real>): (v: MetaValue)
    ensures v.StrValue? <==> (f.Title? || f.Artist? || f.Genre?)
    ensures v.RealValue? <==> (f.Bpm? || f.Total?)
    ensures v.StrValue? ==> v.s == Some(text)
    ensures v.IntValue? ==> Int32Min <= v.i <= Int32Max
    ensures v.IntValue? ==> v.i == (if ParseInt32(text).Some? then ParseInt32(text).value else 0)
    ensures v.RealValue? ==> v.x == (if parseFloat(text).Some? then parseFloat(text).value else 0.0)
  {
    match f
    case Title => StrValue(Some(text))
    case Artist => StrValue(Some(text))
    case Genre => StrValue(Some(text))
    case Bpm => RealValue(parseFloat(text).GetOr(0.0))
    case Total => RealValue(parseFloat(text).GetOr(0.0))
    case Player => IntValue(ParseInt32(text).GetOr(0))
    case PlayLevel => IntValue(ParseInt32(text).GetOr(0))
    case Rank => IntValue(ParseInt32(text).GetOr(0))
    case Difficulty => IntValue(ParseInt32(text).GetOr(0))
  }

  /** The part of a chart one directive may change. */
  datatype Part = MetaPart(f: MetaField) | WavPart | BeatPart(ch: int) | NoPart

  function PartOf(d: Directive): Part {
    match d
    case Meta(f, _) => MetaPart(f)
    case Wav(_, _) => WavPart
    case Channel(_, ch, _) => BeatPart(ch)
    case Skip(_) => NoPart
  }

  /** `r` agrees with `c` everywhere outside part `p`. */
  predicate SameExcept(c: ChartData, r: ChartData, p: Part) {
    r.path == c.path
    && (forall g :: p != MetaPart(g) ==> GetMeta(r, g) == GetMeta(c, g))
    && (p != WavPart ==> r.wavPath == c.wavPath)
    && |r.beat| == |c.beat|
    && (forall ch :: 0 <= ch < |c.beat| && p != BeatPart(ch) ==> r.beat[ch] == c.beat[ch])
  }

  /** Stores one metadata value, overwriting the field's earlier value. */
  function SetMeta(c: ChartData, f: MetaField, text: string, parseFloat: string -> Option<real>): (r: ChartData)
    ensures GetMeta(r, f) == MetaEffect(f, text, parseFloat)
    ensures SameExcept(c, r, MetaPart(f))
  {
    match f
    case Title => c.(title := Some(text))
    case Artist => c.(artist := Some(text))
    case Genre => c.(genre := Some(text))
    case Bpm => c.(bpm := parseFloat(text).GetOr(0.0))
    case Player => c.(player := ParseInt32(text).GetOr(0))
    case PlayLevel => c.(playlevel := ParseInt32(text).GetOr(0))
    case Rank => c.(rank := ParseInt32(text).GetOr(0))
    case Total => c.(total := parseFloat(text).GetOr(0.0))
    case Difficulty => c.(difficulty := ParseInt32(text).GetOr(0))
  }

  /** Performs one directive on a chart. */
  function Apply(c: ChartData, d: Directive, parseFloat: string -> Option<real>): (r: ChartData)
    requires |c.beat| == ChannelCount
    requires d.Channel? ==> 0 <= d.channel < ChannelCount
    ensures SameExcept(c, r, PartOf(d))
    ensures d.Meta? ==> GetMeta(r, d.field) == MetaEffect(d.field, d.text, parseFloat)
    ensures d.Wav? ==> r.wavPath == c.wavPath[d.id := d.file]
    ensures d.Channel? ==> r.beat[d.channel] == c.beat[d.channel] + LineEvents(d.measure, d.payload)
    ensures d.Skip? ==> r == c
  {
    match d
    case Meta(f, text) => SetMeta(c, f, text, parseFloat)
    case Wav(id, file) => c.(wavPath := c.wavPath[id := file])
    case Channel(measure, ch, payload) =>
      c.(beat := c.beat[ch := c.beat[ch] + LineEvents(measure, payload)])
    case Skip(_) => c
  }

  /** The effect of one raw line. */
  function ApplyLine(c: ChartData, raw: string, parseFloat: string -> Option<real>): (r: ChartData)
    requires |c.beat| == ChannelCount
    ensures |r.beat| == ChannelCount && r.path == c.path
  {
    Apply(c, Classify(raw), parseFloat)
  }

  /** The lines processed one after another, in input order. */
  function Run(c: ChartData, lines: seq<string>, parseFloat: string -> Option<real>): (r: ChartData)
    requires |c.beat| == ChannelCount
    ensures |r.beat| == ChannelCount && r.path == c.path
    decreases |lines|
  {
    if lines == [] then c
    else ApplyLine(Run(c, lines[..|lines| - 1], parseFloat), lines[|lines| - 1], parseFloat)
  }

  /**
   * The chart decoded from `lines`. `dir` is the directory of the chart file
   * (what `Path.GetDirectoryName` yields); `parseFloat` stands for `double.TryParse`.
   */
  function Decode(dir: string, lines: seq<string>, parseFloat: string -> Option<real>): (c: ChartData)
    ensures |c.beat| == ChannelCount && c.path == dir
  {
    Run(Empty(dir), lines, parseFloat)
  }

  /** The chart under construction, updated in place line by line. */
  class ChartBuilder {
    var path: string
    var player: int
    var genre: Option<string>
    var title: Option<string>
    var artist: Option<string>
    var bpm: real
    var playlevel: int
    var rank: int
    var difficulty: int
    var total: real
    var wavPath: map<string, string>
    const beat: array<seq<BeatData>>

    ghost predicate Valid()
      reads this
    {
      beat.Length == ChannelCount
    }

    /** The chart value the builder currently holds. */
    function Value(): (c: ChartData)
      reads this, beat
    {
      ChartData(path, player, genre, title, artist, bpm, playlevel, rank, difficulty, total,
                wavPath, beat[..])
    }

    constructor (dir: string)
      ensures Valid() && fresh(beat)
      ensures Value() == Empty(dir)
    {
      var lists := new seq<BeatData>[ChannelCount];
      for i := 0 to ChannelCount
        invariant forall j :: 0 <= j < i ==> lists[j] == []
      {
        lists[i] := [];
      }
      path := dir;
      player, playlevel, rank, difficulty := 0, 0, 0, 0;
      genre, title, artist := None, None, None;
      bpm, total := 0.0, 0.0;
      wavPath := map[];
      beat := lists;
      new;
      assert beat[..] == seq(ChannelCount, _ => []);
    }

    /** Appends the events of one channel-data payload to `beat[channel]`. */
    method AddEvents(measure: int, channel: int, data: string)
      requires Valid() && 0 <= channel < ChannelCount
      modifies beat
      ensures beat[channel] == old(beat[channel]) + LineEvents(measure, data)
      ensures forall j :: 0 <= j < beat.Length && j != channel ==> beat[j] == old(beat[j])
    {
      ghost var before := beat[..];
      var divisions := |data| / 2;
      for i := 0 to divisions
        invariant forall j :: 0 <= j < beat.Length && j != channel ==> beat[j] == before[j]
        invariant beat[channel] == before[channel] + EventsUpTo(measure, data, i)
      {
        var wavId := Token(data, i);
        if wavId != "00" {
          var fractionalMeasure := Position(measure, i, divisions);
          AppendAssoc(before[channel], EventsUpTo(measure, data, i), [BeatData(fractionalMeasure, wavId)]);
          beat[channel] := beat[channel] + [BeatData(fractionalMeasure, wavId)];
        }
      }
    }

    /** Stores one metadata directive's value in its field (`TryParse` writes 0 on failure). */
    method SetField(f: MetaField, text: string, parseFloat: string -> Option<real>)
      modifies this
      ensures Value() == SetMeta(old(Value()), f, text, parseFloat)
    {
      match f
      case Title => title := Some(text);
      case Artist => artist := Some(text);
      case Genre => genre := Some(text);
      case Bpm => bpm := parseFloat(text).GetOr(0.0);
      case Player => player := ParseInt32(text).GetOr(0);
      case PlayLevel => playlevel := ParseInt32(text).GetOr(0);
      case Rank => rank := ParseInt32(text).GetOr(0);
      case Total => total := parseFloat(text).GetOr(0.0);
      case Difficulty => difficulty := ParseInt32(text).GetOr(0);
    }

    /** A `#WAVxx file` line: registers (or replaces) sample `xx`. */
    method WavLine(rawLine: string, parseFloat: string -> Option<real>)
      requires Valid() && |rawLine| >= 7
      modifies this
      ensures Value() == Apply(old(Value()), Wav(Upper(rawLine[4..6]), Trim(rawLine[7..])), parseFloat)
    {
      var id := Upper(rawLine[4..6]);
      var wav := Trim(rawLine[7..]);
      wavPath := wavPath[id := wav];
    }

    /** A channel-data line `#MMMCC:payload`; a bad header or channel leaves the chart as it is. */
    method ChannelData(rawLine: string, parseFloat: string -> Option<real>)
      requires Valid() && |rawLine| >= 7
      modifies beat
      ensures Value() == Apply(old(Value()), ChannelLine(rawLine), parseFloat)
    {
      var measure := ParseInt32(rawLine[1..4]);
      var channel := ParseInt32(rawLine[4..6]);
      if measure.Some? && channel.Some? && 0 <= channel.value < ChannelCount {
        var data := Trim(rawLine[7..]);
        ghost var before := beat[..];
        AddEvents(measure.value, channel.value, data);
        assert beat[..] == before[channel.value := before[channel.value] + LineEvents(measure.value, data)];
      }
    }

    /** Processes one raw line, testing the directives in the decoder's order. */
    method ProcessLine(raw: string, parseFloat: string -> Option<real>)
      requires Valid()
      modifies this, beat
      ensures Valid()
      ensures Value() == ApplyLine(old(Value()), raw, parseFloat)
    {
      ghost var d := Classify(raw);
      var rawLine := Trim(raw);
      if rawLine == [] || rawLine[0] != '#' {
        assert d.Skip?;
        return;
      }
      var key := MatchKeyword(rawLine);
      if key.Some? {
        assert d == Meta(key.value, MetaText(rawLine, key.value));
        SetField(key.value, Trim(rawLine[|Keyword(key.value)|..]), parseFloat);
      } else if StartsWith(rawLine, "#WAV") && |rawLine| >= 7 {
        assert d == Wav(Upper(rawLine[4..6]), Trim(rawLine[7..]));
        WavLine(rawLine, parseFloat);
      } else if |rawLine| >= 7 && rawLine[6] == ':' {
        assert d == ChannelLine(rawLine);
        ChannelData(rawLine, parseFloat);
      } else {
        assert d.Skip?;
      }
    }
  }

  /** The decoder: a fresh builder, then every line in order. */
  method Parse(dir: string, lines: seq<string>, parseFloat: string -> Option<real>) returns (chart: ChartData)
    ensures chart == Decode(dir, lines, parseFloat)
  {
    var builder := new ChartBuilder(dir);
    for lineIndex := 0 to |lines|
      invariant builder.Valid() && fresh(builder.beat)
      invariant builder.Value() == Run(Empty(dir), lines[..lineIndex], parseFloat)
    {
      builder.ProcessLine(lines[lineIndex], parseFloat);
      assert lines[..lineIndex + 1][..lineIndex] == lines[..lineIndex];
    }
    assert lines[..|lines|] == lines;
    chart := builder.Value();
  }
}
