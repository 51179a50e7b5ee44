/**
  The parameter records exchanged with resampler engines, and the two
  builders that fill the input record: one with neutral defaults, one from a
  note's precomputed render data (timing, pitch curve, five-point envelope).
 */
module DriverModels {
  import opened MathRound

  /** A C# `int`. */
  type Int32 = x: int | -0x8000_0000 <= x < 0x8000_0000

  /** The largest C# `int`; a `List<int>` holds at most this many elements. */
  const MaxInt32: int := 0x7FFF_FFFF

  /** A pitch curve as the render item holds it: a list of `int` samples (cents). */
  type PitchCurve = s: seq<Int32> | |s| <= MaxInt32

  datatype Option<T> = None | Some(value: T)

  // ---------------------------------------------------------------------------
  // Information model

  /** One flag an engine accepts. */
  datatype EngineFlagItem = EngineFlagItem(
    flagStr: string,
    threeLetterName: string,
    max: real,
    min: real,
    default: real)

  /** What an engine says about itself: identity, usage text and its flags. */
  datatype EngineInfo = EngineInfo(
    name: string,
    version: string,
    author: string,
    usage: string,
    flagItemCount: Int32,
    flagItems: seq<EngineFlagItem>)
  {
    /** The engine's display text: its name, one space, its version. */
    function ToString(): (s: string)
      ensures |s| == |name| + 1 + |version|
      ensures s[..|name|] == name && s[|name|] == ' ' && s[|name| + 1..] == version
    {
      name + " " + version
    }
  }

  /**
    Index of the first space in `s`, or `|s|` when there is none. The source
    has no such operation: this and SplitNameVersion only serve as the
    inverse of EngineInfo.ToString in ToStringSplitsBack.
   */
  function IndexOfSpace(s: string): (i: nat)
    ensures i <= |s|
    ensures i < |s| ==> s[i] == ' '
    ensures forall k :: 0 <= k < i ==> s[k] != ' '
  {
    if s == [] || s[0] == ' ' then 0 else 1 + IndexOfSpace(s[1..])
  }

  /**
    Splits a display text at its first space into a name and a version; the
    inverse of EngineInfo.ToString, with no counterpart in the source.
   */
  function SplitNameVersion(s: string): (parts: (string, string))
    ensures ' ' !in parts.0
    ensures IndexOfSpace(s) < |s| ==> s == parts.0 + " " + parts.1
    ensures IndexOfSpace(s) == |s| ==> parts == (s, "")
  {
    var i := IndexOfSpace(s);
    if i < |s| then (s[..i], s[i + 1..]) else (s, "")
  }

  /** An engine whose name has no space can be read back from its display text. */
  lemma ToStringSplitsBack(info: EngineInfo)
    requires ' ' !in info.name
    ensures SplitNameVersion(info.ToString()) == (info.name, info.version)
  {
    // The first space of the display text is the separator after the name.
    assert IndexOfSpace(info.ToString()) == |info.name|;
  }

  // ---------------------------------------------------------------------------
  // Render data, as the note renderer hands it over (fields this code reads)

  /** One point of a note's amplitude envelope: time (ms) and amplitude (%). */
  datatype EnvelopePoint = EnvelopePoint(x: real, y: real)

  /** The voicebank's timing entry for a sample. */
  datatype Oto = Oto(offset: real, consonant: real, cutoff: real)

  /** The phoneme being sung. */
  datatype Phoneme = Phoneme(preutter: real)

  /** A note's precomputed render data. */
  datatype RenderItem = RenderItem(
    rawFile: string,
    midFile: string,
    outFile: string,
    noteNum: int,
    velocity: real,
    strFlags: string,
    oto: Option<Oto>,
    requiredLength: real,
    volume: real,
    modulation: real,
    pitchData: PitchCurve,
    tempo: real,
    durTick: Int32,
    lengthAdjustment: real,
    skipOver: real,
    envelope: seq<EnvelopePoint>,
    phoneme: Phoneme,
    overlap: real)

  // ---------------------------------------------------------------------------
  // Input model

  /** The full parameter set of one synthesis call. */
  datatype EngineInput = EngineInput(
    inputWaveFile: string,
    intermediateWaveFile: string,
    outputWaveFile: string,
    noteString: string,
    velocity: real,
    strFlags: string,
    offset: real,
    requiredLength: real,
    consonant: real,
    cutoff: real,
    volume: real,
    modulation: real,
    tempo: real,
    nPitchBend: Int32,
    pitchBend: seq<Int32>,
    stp: real,
    durTick: Int32,
    adjustment: real,
    envelope: seq<real>,
    lastNote: bool)

  const NeutralVelocity: real := 100.0
  const NeutralVolume: real := 100.0
  const NeutralModulation: real := 100.0
  const NeutralTempo: real := 120.0

  /** Number of slots of an envelope built from render data. */
  const EnvelopeSlots: nat := 11

  /** The pitch-bend count field agrees with the pitch-bend array. */
  predicate PitchCountMatches(input: EngineInput) {
    input.nPitchBend as int == |input.pitchBend|
  }

  /** Every numeric and text field holds its documented neutral value. */
  predicate HasNeutralDefaults(input: EngineInput) {
    && input.inputWaveFile == "" && input.intermediateWaveFile == ""
    && input.outputWaveFile == "" && input.noteString == "" && input.strFlags == ""
    && input.velocity == NeutralVelocity && input.volume == NeutralVolume
    && input.modulation == NeutralModulation && input.tempo == NeutralTempo
    && input.offset == 0.0 && input.requiredLength == 0.0
    && input.consonant == 0.0 && input.cutoff == 0.0
    && input.stp == 0.0 && input.durTick == 0 && input.adjustment == 0.0
    && !input.lastNote
  }

  /** The parameter record with every field at its neutral default. */
  function CreateInputModel(): (input: EngineInput)
    ensures HasNeutralDefaults(input)
    ensures PitchCountMatches(input) && input.pitchBend == []
    ensures input.envelope == [0.0, 0.0]
  {
    EngineInput(
      inputWaveFile := "",
      intermediateWaveFile := "",
      outputWaveFile := "",
      noteString := "",
      velocity := 100.0,
      strFlags := "",
      offset := 0.0,
      requiredLength := 0.0,
      consonant := 0.0,
      cutoff := 0.0,
      volume := 100.0,
      modulation := 100.0,
      tempo := 120.0,
      nPitchBend := 0,
      pitchBend := [],
      stp := 0.0,
      durTick := 0,
      adjustment := 0.0,
      envelope := [0.0, 0.0],
      lastNote := false)
  }

  /** The X values of the first five envelope points never decrease. */
  predicate NonDecreasingX(points: seq<EnvelopePoint>)
    requires |points| >= 5
  {
    points[0].x <= points[1].x <= points[2].x <= points[3].x <= points[4].x
  }

  /**
    The eleven envelope slots an engine expects, from the first five envelope
    points: start of the attack (ms, five decimals), attack width, release
    width, the amplitudes at points 0, 1, 3 and 4, the overlap, a reserved
    zero, the sustain width and the amplitude at point 2.
   */
  function PackEnvelope(points: seq<EnvelopePoint>, preutter: real, overlap: real): (env: seq<real>)
    requires |points| >= 5
    ensures |env| == EnvelopeSlots
    ensures env[0] == Round5(points[0].x + preutter)
    ensures OnGrid5(env[0]) && -HalfUnit <= env[0] - (points[0].x + preutter) <= HalfUnit
    ensures points[0].x + env[1] == points[1].x && points[3].x + env[2] == points[4].x
    ensures env[3..7] == [points[0].y, points[1].y, points[3].y, points[4].y] && env[10] == points[2].y
    ensures env[7] == overlap && env[8] == 0.0
    ensures env[9] <= points[3].x - points[2].x
    ensures 0.0 <= points[2].x - points[1].x <= points[3].x - points[2].x ==> env[9] == points[2].x - points[1].x
    ensures points[2].x - points[1].x <= 0.0 <= points[3].x - points[2].x ==> env[9] == 0.0
    ensures points[3].x - points[2].x <= Max(0.0, points[2].x - points[1].x) ==> env[9] == points[3].x - points[2].x
  {
    var p0, p1, p2, p3, p4 := points[0], points[1], points[2], points[3], points[4];
    [ Round5(p0.x + preutter),
      p1.x - p0.x,
      p4.x - p3.x,
      p0.y, p1.y,
      p3.y, p4.y,
      overlap,
      0.0,
      Min(Max(0.0, p2.x - p1.x), p3.x - p2.x), p2.y ]
  }

  function Max(a: real, b: real): real { if a >= b then a else b }
  function Min(a: real, b: real): real { if a <= b then a else b }

  /**
    The parameter record for one note. `noteName` gives the note name of a
    note number (the music-math helper is not part of this model).
   */
  function CreateInputModelFromRenderItem(item: RenderItem, noteName: int -> string): (input: EngineInput)
    requires |item.envelope| >= 5
    ensures input.inputWaveFile == item.rawFile
    ensures input.intermediateWaveFile == item.midFile
    ensures input.outputWaveFile == item.outFile
    ensures input.noteString == noteName(item.noteNum)
    ensures input.velocity == item.velocity && input.strFlags == item.strFlags
    ensures input.requiredLength == item.requiredLength
    ensures input.volume == item.volume && input.modulation == item.modulation
    ensures input.tempo == item.tempo && input.durTick == item.durTick
    ensures input.adjustment == item.lengthAdjustment && input.stp == item.skipOver
    ensures item.oto.None? ==> input.offset == 0.0 && input.consonant == 0.0 && input.cutoff == 0.0
    ensures item.oto.Some? ==>
      && input.offset == item.oto.value.offset
      && input.consonant == item.oto.value.consonant
      && input.cutoff == item.oto.value.cutoff
    ensures PitchCountMatches(input) && input.pitchBend == item.pitchData
    ensures input.envelope == PackEnvelope(item.envelope, item.phoneme.preutter, item.overlap)
    ensures !input.lastNote
  {
    var oto := item.oto;
    EngineInput(
      inputWaveFile := item.rawFile,
      intermediateWaveFile := item.midFile,
      outputWaveFile := item.outFile,
      noteString := noteName(item.noteNum),
      velocity := item.velocity,
      strFlags := item.strFlags,
      offset := if oto.Some? then oto.value.offset else 0.0,
      requiredLength := item.requiredLength,
      consonant := if oto.Some? then oto.value.consonant else 0.0,
      cutoff := if oto.Some? then oto.value.cutoff else 0.0,
      volume := item.volume,
      modulation := item.modulation,
      tempo := item.tempo,
      nPitchBend := |item.pitchData|,
      pitchBend := item.pitchData,
      stp := item.skipOver,
      durTick := item.durTick,
      adjustment := item.lengthAdjustment,
      envelope := PackEnvelope(item.envelope, item.phoneme.preutter, item.overlap),
      lastNote := false)
  }

  // ---------------------------------------------------------------------------
  // Properties of the envelope packing

  /**
    For envelope points in time order, the attack, release and sustain widths
    are non-negative, the sustain is no wider than the gap from point 2 to
    point 3, and the three widths together fit within the envelope's span.
   */
  lemma MonotoneEnvelopeWidths(points: seq<EnvelopePoint>, preutter: real, overlap: real)
    requires |points| >= 5 && NonDecreasingX(points)
    ensures var env := PackEnvelope(points, preutter, overlap);
      && env[1] >= 0.0 && env[2] >= 0.0
      && 0.0 <= env[9] <= points[3].x - points[2].x
      && env[1] + env[9] + env[2] <= points[4].x - points[0].x
  {
  }

  /**
    For envelope points in time order the sustain slot equals the clamped
    minimum `max(0, min(X2 - X1, X3 - X2))`.
   */
  lemma SustainIsClampedMinimum(points: seq<EnvelopePoint>, preutter: real, overlap: real)
    requires |points| >= 5 && points[2].x <= points[3].x
    ensures PackEnvelope(points, preutter, overlap)[9]
      == Max(0.0, Min(points[2].x - points[1].x, points[3].x - points[2].x))
  {
  }

  /**
    When point 3 lies before point 2 the sustain slot is negative: the clamp
    at zero is applied before the minimum, not after it.
   */
  lemma SustainNegativeWhenPointsCross(points: seq<EnvelopePoint>, preutter: real, overlap: real)
    requires |points| >= 5 && points[3].x < points[2].x
    ensures PackEnvelope(points, preutter, overlap)[9] < 0.0
  {
  }

  /** Shifts every envelope point by `d` in time. */
  function ShiftPoints(points: seq<EnvelopePoint>, d: real): (shifted: seq<EnvelopePoint>)
    ensures |shifted| == |points|
    ensures forall i, j :: 0 <= i < |points| && 0 <= j < |points| ==>
      shifted[j].x - shifted[i].x == points[j].x - points[i].x && shifted[i].y == points[i].y
    ensures |points| > 0 ==> shifted[0].x == points[0].x + d
  {
    seq(|points|, i requires 0 <= i < |points| => EnvelopePoint(points[i].x + d, points[i].y))
  }

  /**
    Shifting the whole envelope in time changes only the attack start, and a
    later shift never moves it earlier: every width, amplitude and the
    overlap depend on the envelope's shape alone.
   */
  lemma EnvelopeShiftInvariant(points: seq<EnvelopePoint>, d: real, preutter: real, overlap: real)
    requires |points| >= 5
    ensures var env := PackEnvelope(points, preutter, overlap);
      var env' := PackEnvelope(ShiftPoints(points, d), preutter, overlap);
      && env'[1..] == env[1..]
      && env'[0] == Round5(points[0].x + d + preutter)
      && (d >= 0.0 ==> env[0] <= env'[0])
  {
    var env := PackEnvelope(points, preutter, overlap);
    var env' := PackEnvelope(ShiftPoints(points, d), preutter, overlap);
    assert env'[1..] == env[1..];
    if d >= 0.0 {
      Round5Monotone(points[0].x + preutter, points[0].x + d + preutter);
    }
  }

  /** Packing a five-point envelope worked by hand: attack 5 ms, sustain 5 ms, release 5 ms. */
  lemma EnvelopeExample()
    ensures PackEnvelope(
      [EnvelopePoint(0.0, 0.0), EnvelopePoint(5.0, 100.0), EnvelopePoint(40.0, 100.0),
       EnvelopePoint(45.0, 0.0), EnvelopePoint(50.0, 0.0)], 3.0, 5.0)
      == [3.0, 5.0, 5.0, 0.0, 100.0, 0.0, 0.0, 5.0, 0.0, 5.0, 100.0]
  {
    var points := [EnvelopePoint(0.0, 0.0), EnvelopePoint(5.0, 100.0), EnvelopePoint(40.0, 100.0),
                   EnvelopePoint(45.0, 0.0), EnvelopePoint(50.0, 0.0)];
    assert (3.0 * Scale).Floor == 300000;
    Round5OnGrid(3.0);
    assert PackEnvelope(points, 3.0, 5.0)
      == [Round5(3.0), 5.0, 5.0, 0.0, 100.0, 0.0, 0.0, 5.0, 0.0, Min(Max(0.0, 35.0), 5.0), 100.0];
  }

  // ---------------------------------------------------------------------------
  // Relating the two builders

  /** True when a render item carries no information beyond the neutral defaults. */
  predicate IsNeutralItem(item: RenderItem) {
    && item.rawFile == "" && item.midFile == "" && item.outFile == "" && item.strFlags == ""
    && item.velocity == NeutralVelocity && item.volume == NeutralVolume
    && item.modulation == NeutralModulation && item.tempo == NeutralTempo
    && item.oto.None? && item.requiredLength == 0.0 && item.pitchData == []
    && item.durTick == 0 && item.lengthAdjustment == 0.0 && item.skipOver == 0.0
  }

  /**
    Building from a neutral render item gives the default record, except for
    the note name and the envelope, which the default leaves at two zeros.
   */
  lemma NeutralItemGivesDefaults(item: RenderItem, noteName: int -> string)
    requires |item.envelope| >= 5 && IsNeutralItem(item)
    ensures var input := CreateInputModelFromRenderItem(item, noteName);
      input == CreateInputModel().(noteString := noteName(item.noteNum), envelope := input.envelope)
  {
  }
}
