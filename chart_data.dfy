/**
 * The decoded chart (`ChartData`) and its note events (`BeatData`).
 * The C# struct's reference-typed string fields start out null; here
 * such a field is an `Option<string>` that is `None` until a directive sets it.
 */
module ChartModel {
  import opened Wrappers
  import opened Text

  /** The number of per-channel event lists the decoder allocates. */
  const ChannelCount: nat := 129

  /** One note event: its fractional measure position and the id of the sample it plays. */
  datatype BeatData = BeatData(measure: real, wav: string)

  datatype ChartData = ChartData(
    path: string,
    player: int,
    genre: Option<string>,
    title: Option<string>,
    artist: Option<string>,
    bpm: real,
    playlevel: int,
    rank: int,
    difficulty: int,
    total: real,
    wavPath: map<string, string>,
    beat: seq<seq<BeatData>>)

  /** A sample id as the decoder stores it: two characters, upper-cased. */
  predicate IsSampleId(s: string) {
    |s| == 2 && IsUpper(s)
  }

  /** An event the decoder can produce: it names a sample and is never the empty slot "00". */
  predicate IsNote(e: BeatData) {
    IsSampleId(e.wav) && e.wav != "00"
  }

  /** The shape every decoded chart has. */
  predicate WellFormed(c: ChartData) {
    |c.beat| == ChannelCount
    && (forall id :: id in c.wavPath ==> IsSampleId(id))
    && (forall ch, k :: 0 <= ch < |c.beat| && 0 <= k < |c.beat[ch]| ==> IsNote(c.beat[ch][k]))
  }

  /** The chart before any line is read: 129 empty lists, no samples, default fields. */
  function Empty(dir: string): (c: ChartData)
    ensures WellFormed(c)
  {
    ChartData(dir, 0, None, None, None, 0.0, 0, 0, 0, 0.0, map[],
              seq(ChannelCount, _ => []))
  }
}
