/** Properties of the decoder: dispatch, what one line changes, and what a whole run computes. */
module BmsProperties {
  import opened Wrappers
  import opened Text
  import opened Numbers
  import opened ChartModel
  import opened BmsParser
  import opened BmsEvents
  import opened Seqs

  /** No line starts with two different metadata keywords. */
  lemma KeywordsPrefixFree(t: string, f: MetaField, g: MetaField)
    requires StartsWith(t, Keyword(f)) && StartsWith(t, Keyword(g))
    ensures f == g
  {
    assert t[1] == Keyword(f)[1] == Keyword(g)[1];
    assert t[2] == Keyword(f)[2] == Keyword(g)[2];
    if Keyword(f)[1] == 'P' {
      assert t[5] == Keyword(f)[5] == Keyword(g)[5];
    }
  }

  /** The keyword search finds the one keyword a line starts with, and nothing otherwise. */
  lemma MatchKeywordSpec(t: string, f: MetaField)
    ensures MatchKeyword(t) == Some(f) <==> StartsWith(t, Keyword(f))
  {
    if StartsWith(t, Keyword(f)) {
      var r := MatchKeyword(t);
      if r.Some? {
        KeywordsPrefixFree(t, f, r.value);
      }
    }
  }

  /**
   * A line is a metadata directive for `f` exactly when its trimmed text starts
   * with `f`'s keyword, and then its value is the trimmed remainder.
   */
  lemma MetaDispatch(raw: string, f: MetaField)
    ensures var t := Trim(raw);
      (Classify(raw).Meta? && Classify(raw).field == f <==> StartsWith(t, Keyword(f)))
      && (StartsWith(t, Keyword(f)) ==> Classify(raw) == Meta(f, Trim(t[|Keyword(f)|..])))
  {
    var t := Trim(raw);
    MatchKeywordSpec(t, f);
    if StartsWith(t, Keyword(f)) {
      assert |Keyword(f)| > 0 && t[0] == Keyword(f)[0] == '#';
    }
  }

  /** A `#WAV` line never matches a metadata keyword. */
  lemma WavIsNoKeyword(t: string)
    requires StartsWith(t, "#WAV")
    ensures MatchKeyword(t) == None
  {
    if MatchKeyword(t).Some? {
      var f := MatchKeyword(t).value;
      assert t[1] == Keyword(f)[1] == 'W';
    }
  }

  /** A stored metadata value overwrites the field and leaves the rest of the chart alone. */
  lemma MetaLineEffect(c: ChartData, raw: string, f: MetaField, parseFloat: string -> Option<real>)
    requires |c.beat| == ChannelCount
    requires StartsWith(Trim(raw), Keyword(f))
    ensures var r := ApplyLine(c, raw, parseFloat);
      GetMeta(r, f) == MetaEffect(f, Trim(Trim(raw)[|Keyword(f)|..]), parseFloat)
      && SameExcept(c, r, MetaPart(f))
  {
    MetaDispatch(raw, f);
  }

  /**
   * A `#WAV` line of at least 7 characters maps the upper-cased id (characters 4-5)
   * to the trimmed text from character 7 on; every other key and field is kept.
   */
  lemma WavLineEffect(c: ChartData, raw: string, parseFloat: string -> Option<real>)
    requires |c.beat| == ChannelCount
    requires StartsWith(Trim(raw), "#WAV") && |Trim(raw)| >= 7
    ensures var t := Trim(raw);
      var r := ApplyLine(c, raw, parseFloat);
      r.wavPath == c.wavPath[Upper(t[4..6]) := Trim(t[7..])]
      && SameExcept(c, r, WavPart)
  {
    ClassifyWavLine(raw);
  }

  lemma ClassifyWavLine(raw: string)
    requires StartsWith(Trim(raw), "#WAV") && |Trim(raw)| >= 7
    ensures var t := Trim(raw);
      Classify(raw) == Wav(Upper(t[4..6]), Trim(t[7..]))
  {
    var t := Trim(raw);
    WavIsNoKeyword(t);
    assert t[0] == t[..4][0] == '#';
  }

  /**
   * A channel-data line `#MMMCC:payload` appends the payload's events to list CC
   * when MMM and CC parse and CC names one of the 129 lists; otherwise it changes nothing.
   */
  lemma ChannelLineEffect(c: ChartData, raw: string, parseFloat: string -> Option<real>)
    requires |c.beat| == ChannelCount
    requires var t := Trim(raw);
      |t| >= 7 && t[0] == '#' && t[6] == ':' && !StartsWith(t, "#WAV")
      && forall f :: !StartsWith(t, Keyword(f))
    ensures var t := Trim(raw);
      var r := ApplyLine(c, raw, parseFloat);
      var measure := ParseInt32(t[1..4]);
      var channel := ParseInt32(t[4..6]);
      if measure.Some? && channel.Some? && 0 <= channel.value < ChannelCount then
        r.beat[channel.value] == c.beat[channel.value] + LineEvents(measure.value, Trim(t[7..]))
        && SameExcept(c, r, BeatPart(channel.value))
      else r == c
  {
    ClassifyChannelLine(raw);
    ApplyChannelLine(c, Trim(raw), parseFloat);
  }

  /** A keyword-free, non-`#WAV` line with ':' at index 6 is read as channel data. */
  lemma ClassifyChannelLine(raw: string)
    requires var t := Trim(raw);
      |t| >= 7 && t[0] == '#' && t[6] == ':' && !StartsWith(t, "#WAV")
      && forall f :: !StartsWith(t, Keyword(f))
    ensures Classify(raw) == ChannelLine(Trim(raw))
  {
    assert MatchKeyword(Trim(raw)) == None;
  }

  lemma ApplyChannelLine(c: ChartData, t: string, parseFloat: string -> Option<real>)
    requires |c.beat| == ChannelCount && |t| >= 7
    ensures var r := Apply(c, ChannelLine(t), parseFloat);
      var measure := ParseInt32(t[1..4]);
      var channel := ParseInt32(t[4..6]);
      if measure.Some? && channel.Some? && 0 <= channel.value < ChannelCount then
        r.beat[channel.value] == c.beat[channel.value] + LineEvents(measure.value, Trim(t[7..]))
        && SameExcept(c, r, BeatPart(channel.value))
      else r == c
  {
  }

  /**
   * A `#` line that names no keyword, is no `#WAV` line of at least 7 characters
   * and has no ':' at index 6 (`#STAGEFILE`, `#BMP01`, `#LNOBJ`, ...) changes nothing.
   */
  lemma UnrecognizedIgnored(c: ChartData, raw: string, parseFloat: string -> Option<real>)
    requires |c.beat| == ChannelCount
    requires var t := Trim(raw);
      t != [] && t[0] == '#' && (forall f :: !StartsWith(t, Keyword(f)))
      && !(StartsWith(t, "#WAV") && |t| >= 7) && !(|t| >= 7 && t[6] == ':')
    ensures Classify(raw) == Skip(Unrecognized)
    ensures ApplyLine(c, raw, parseFloat) == c
  {
    assert MatchKeyword(Trim(raw)) == None;
  }

  /** A line that is blank after trimming, or does not start with '#', changes nothing. */
  lemma NonDirectiveIgnored(c: ChartData, raw: string, parseFloat: string -> Option<real>)
    requires |c.beat| == ChannelCount
    requires Trim(raw) == [] || Trim(raw)[0] != '#'
    ensures ApplyLine(c, raw, parseFloat) == c
  {
  }

  /** Every directive keeps a chart well formed. */
  lemma ApplyKeepsWellFormed(c: ChartData, d: Directive, parseFloat: string -> Option<real>)
    requires WellFormed(c)
    requires d.Wav? ==> IsSampleId(d.id)
    requires d.Channel? ==> 0 <= d.channel < ChannelCount
    ensures WellFormed(Apply(c, d, parseFloat))
  {
    if d.Channel? {
      EventsInMeasure(d.measure, d.payload, |d.payload| / 2);
      AppendNotes(c, d.channel, LineEvents(d.measure, d.payload));
    }
  }

  /** Appending note events to one list keeps a chart well formed. */
  lemma AppendNotes(c: ChartData, ch: int, ev: seq<BeatData>)
    requires WellFormed(c) && 0 <= ch < ChannelCount
    requires forall e :: e in ev ==> IsNote(e)
    ensures WellFormed(c.(beat := c.beat[ch := c.beat[ch] + ev]))
  {
    var beat := c.beat[ch := c.beat[ch] + ev];
    forall i, k | 0 <= i < |beat| && 0 <= k < |beat[i]|
      ensures IsNote(beat[i][k])
    {
      if i == ch && k >= |c.beat[ch]| {
        assert beat[i][k] == ev[k - |c.beat[ch]|];
      }
    }
  }

  /** Processing `a` then `b` is processing `a + b`: a decode may pause between lines and resume. */
  lemma {:induction false} RunSplit(c: ChartData, a: seq<string>, b: seq<string>, parseFloat: string -> Option<real>)
    requires |c.beat| == ChannelCount
    ensures Run(c, a + b, parseFloat) == Run(Run(c, a, parseFloat), b, parseFloat)
    decreases |b|
  {
    if b == [] {
      assert a + b == a;
    } else {
      var b' := b[..|b| - 1];
      var x := b[|b| - 1];
      RunSplit(c, a, b', parseFloat);
      RunSplitStep(c, a, b, parseFloat);
    }
  }

  /** The inductive step of `RunSplit`: one more line at the end of `b`. */
  lemma RunSplitStep(c: ChartData, a: seq<string>, b: seq<string>, parseFloat: string -> Option<real>)
    requires |c.beat| == ChannelCount && b != []
    requires Run(c, a + b[..|b| - 1], parseFloat) == Run(Run(c, a, parseFloat), b[..|b| - 1], parseFloat)
    ensures Run(c, a + b, parseFloat) == Run(Run(c, a, parseFloat), b, parseFloat)
  {
    var ab := a + b;
    assert ab[..|ab| - 1] == a + b[..|b| - 1];
    assert ab[|ab| - 1] == b[|b| - 1];
    RunStep(c, ab, parseFloat);
    RunStep(Run(c, a, parseFloat), b, parseFloat);
  }

  /** `Run` performs the last line after all the others. */
  lemma RunStep(c: ChartData, lines: seq<string>, parseFloat: string -> Option<real>)
    requires |c.beat| == ChannelCount && lines != []
    ensures Run(c, lines, parseFloat)
      == ApplyLine(Run(c, lines[..|lines| - 1], parseFloat), lines[|lines| - 1], parseFloat)
  {
  }

  /** A skipped line can be removed from the input without changing the decoded chart. */
  lemma SkippedLineRemovable(c: ChartData, a: seq<string>, x: string, b: seq<string>,
                             parseFloat: string -> Option<real>)
    requires |c.beat| == ChannelCount
    requires Classify(x).Skip?
    ensures Run(c, a + [x] + b, parseFloat) == Run(c, a + b, parseFloat)
  {
    RunSplit(c, a + [x], b, parseFloat);
    RunSplit(c, a, b, parseFloat);
    assert (a + [x])[..|a + [x]| - 1] == a;
  }

  /** The decoded chart is well formed whatever the input lines. */
  lemma {:induction false} RunWellFormed(c: ChartData, lines: seq<string>, parseFloat: string -> Option<real>)
    requires WellFormed(c)
    ensures WellFormed(Run(c, lines, parseFloat))
    decreases |lines|
  {
    if lines != [] {
      RunWellFormed(c, lines[..|lines| - 1], parseFloat);
      ApplyKeepsWellFormed(Run(c, lines[..|lines| - 1], parseFloat), Classify(lines[|lines| - 1]), parseFloat);
    }
  }

  /**
   * The decoded chart keeps the input directory, has 129 event lists, upper-case
   * two-character sample ids and only non-"00" note events.
   */
  lemma DecodeWellFormed(dir: string, lines: seq<string>, parseFloat: string -> Option<real>)
    ensures var r := Decode(dir, lines, parseFloat);
      WellFormed(r) && r.path == dir
  {
    RunWellFormed(Empty(dir), lines, parseFloat);
  }

  /** Decoding no lines gives the empty chart: default fields, no samples, 129 empty lists. */
  lemma DecodeNoLines(dir: string, parseFloat: string -> Option<real>)
    ensures var r := Decode(dir, [], parseFloat);
      r.path == dir && r.title == r.artist == r.genre == None
      && r.bpm == r.total == 0.0
      && r.player == r.playlevel == r.rank == r.difficulty == 0
      && r.wavPath == map[]
      && |r.beat| == ChannelCount && forall ch :: 0 <= ch < ChannelCount ==> r.beat[ch] == []
  {
  }

  /** The text of the last line that sets field `f`, if any. */
  function LastMeta(lines: seq<string>, f: MetaField): Option<string>
    decreases |lines|
  {
    if lines == [] then None
    else
      var d := Classify(lines[|lines| - 1]);
      if d.Meta? && d.field == f then Some(d.text) else LastMeta(lines[..|lines| - 1], f)
  }

  /** A metadata field holds what its last directive stored, or its prior value if none. */
  lemma {:induction false} RunMeta(c: ChartData, lines: seq<string>, f: MetaField, parseFloat: string -> Option<real>)
    requires |c.beat| == ChannelCount
    ensures GetMeta(Run(c, lines, parseFloat), f) ==
      match LastMeta(lines, f)
      case Some(text) => MetaEffect(f, text, parseFloat)
      case None => GetMeta(c, f)
    decreases |lines|
  {
    if lines != [] {
      RunMeta(c, lines[..|lines| - 1], f, parseFloat);
    }
  }

  /** The file the last `#WAV` line for `id` registers, if any. */
  function LastWav(lines: seq<string>, id: string): Option<string>
    decreases |lines|
  {
    if lines == [] then None
    else
      var d := Classify(lines[|lines| - 1]);
      if d.Wav? && d.id == id then Some(d.file) else LastWav(lines[..|lines| - 1], id)
  }

  /** Each sample id maps to the file of its last registration; unregistered keys keep their entry. */
  lemma {:induction false} RunWav(c: ChartData, lines: seq<string>, id: string, parseFloat: string -> Option<real>)
    requires |c.beat| == ChannelCount
    ensures var w := Run(c, lines, parseFloat).wavPath;
      match LastWav(lines, id)
      case Some(file) => id in w && w[id] == file
      case None => (id in w <==> id in c.wavPath) && (id in w ==> w[id] == c.wavPath[id])
    decreases |lines|
  {
    if lines != [] {
      RunWav(c, lines[..|lines| - 1], id, parseFloat);
    }
  }

  /** The events the channel-data lines for channel `ch` contribute, line after line. */
  function ChannelEvents(lines: seq<string>, ch: int): seq<BeatData>
    decreases |lines|
  {
    if lines == [] then []
    else
      var d := Classify(lines[|lines| - 1]);
      ChannelEvents(lines[..|lines| - 1], ch)
        + (if d.Channel? && d.channel == ch then LineEvents(d.measure, d.payload) else [])
  }

  /** Event lists are only appended to, in line-encounter order. */
  lemma {:induction false} RunBeat(c: ChartData, lines: seq<string>, ch: int, parseFloat: string -> Option<real>)
    requires |c.beat| == ChannelCount && 0 <= ch < ChannelCount
    ensures Run(c, lines, parseFloat).beat[ch] == c.beat[ch] + ChannelEvents(lines, ch)
    decreases |lines|
  {
    if lines != [] {
      var init := lines[..|lines| - 1];
      var x := lines[|lines| - 1];
      RunBeat(c, init, ch, parseFloat);
      var prev := Run(c, init, parseFloat);
      var d := Classify(x);
      assert Run(c, lines, parseFloat) == Apply(prev, d, parseFloat);
      var extra := if d.Channel? && d.channel == ch then LineEvents(d.measure, d.payload) else [];
      assert Apply(prev, d, parseFloat).beat[ch] == prev.beat[ch] + extra;
      assert ChannelEvents(lines, ch) == ChannelEvents(init, ch) + extra;
      assert prev.beat[ch] == c.beat[ch] + ChannelEvents(init, ch);
      AppendAssoc(c.beat[ch], ChannelEvents(init, ch), extra);
    }
  }

  /** Later lines never reorder or remove the events already in a list. */
  lemma EventsOnlyAppended(c: ChartData, a: seq<string>, b: seq<string>, ch: int,
                           parseFloat: string -> Option<real>)
    requires |c.beat| == ChannelCount && 0 <= ch < ChannelCount
    ensures var before := Run(c, a, parseFloat).beat[ch];
      var after := Run(c, a + b, parseFloat).beat[ch];
      |before| <= |after| && after[..|before|] == before
  {
    RunSplit(c, a, b, parseFloat);
    RunBeat(Run(c, a, parseFloat), b, ch, parseFloat);
  }
}
