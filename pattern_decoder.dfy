/**
 * The layout of an RD-8 pattern (RD8Pattern.h) and its decoder
 * (RD8Pattern::getPattern).
 *
 * An unpacked pattern is 889 bytes: a data-format version and a product
 * variant, twelve tracks of 64 step bytes, and the pattern parameters from
 * offset 804 on.  Each step byte carries four flags and a two-bit
 * note-repeat count.
 */
module PatternDecoder {
  import opened Wrappers

  // ----- RD8Pattern.h: SysexIndex -----

  const PatternDataVersion: nat := 0
  const ProductVariant: nat := 1
  const AccentSteps: nat := 2
  const StepsPerTrack: nat := 64
  const TrackCount: nat := 12
  const PatternLength: nat := 2 + 12 * 64
  const RandomOnOff: nat := 2 + 12 * 64 + 13
  const RandomTracksLo: nat := RandomOnOff + 1
  const RandomTrackHi: nat := RandomTracksLo + 1
  const RandomSteps: nat := RandomTrackHi + 1
  const Next: nat := RandomSteps + 18
  const Tempo: nat := 804
  const Swing: nat := Tempo + 1
  const Probability: nat := Swing + 1
  const FlamLevel: nat := Probability + 1
  const FilterMode: nat := FlamLevel + 1
  const FilterEnable: nat := FilterMode + 1
  const FilterAutomation: nat := FilterEnable + 1
  const FilterSteps: nat := FilterAutomation + 1
  const PolymeterOnOff: nat := FilterSteps + 64
  const StepSize: nat := PolymeterOnOff + 1
  const AutoAdvance: nat := StepSize + 1
  const FXBusSends: nat := AutoAdvance + 1

  /** The only pattern size and product variant getPattern accepts. */
  const PatternDataSize: nat := 889
  const PatternProductVariant: bv8 := 0x08

  // ----- RD8Pattern.h: BitPatterns -----

  const OnOffBit: bv8 := 1 << 0
  const ProbabilityBit: bv8 := 1 << 2
  const FlamBit: bv8 := 1 << 3
  const NoteRepeatOnOffBit: bv8 := 1 << 4
  const NoteRepeatMask: bv8 := 3 << 5

  /** The bits of a step byte that the decoder reads: all but bits 1 and 7. */
  const UsedStepBits: bv8 := 0x7D

  datatype StepData = StepData(stepOnOff: bool, probabilityOnOff: bool, flamOnOff: bool, repeatOnOff: bool, repeat: bv8)
  {
    /** StepData::isOn */
    predicate IsOn() { stepOnOff }
  }

  datatype PatternData = PatternData(
    tracks: seq<seq<StepData>>,
    tempo: bv8,
    swing: bv8,
    probability: bv8,
    flamLevel: bv8,
    filterMode: bv8,
    filterOnOff: bool,
    filterAutomationOnOff: bool,
    filterSteps: seq<bv8>,
    polymeterOnOff: bool,
    stepSize: bv8,
    autoAdvanceOnOff: bool)

  /** PatternData::numberOfTracks */
  function NumberOfTracks(): (n: nat)
    ensures n == |TrackNames()|
  {
    12
  }

  /** PatternData::trackNames, in the order of the step-byte tracks. */
  function TrackNames(): seq<string>
  {
    ["Accent", "Bass Drum", "Snare Drum", "Low Tom/Conga", "Mid Tom/Conga", "High Tom/Conga",
     "Rim Shot/Claves", "Hand Clap/Maracas", "Cow Bell", "Cymbal", "Open Hat", "Closed Hat"]
  }

  // ----- One step byte -----

  /** The decoding of one step byte: four flags and the repeat count from bits 5 and 6. */
  function DecodeStep(b: bv8): (s: StepData)
    ensures s.repeat <= 3
    ensures s.IsOn() <==> b & 1 == 1
  {
    StepData(
      b & OnOffBit != 0,
      b & ProbabilityBit != 0,
      b & FlamBit != 0,
      b & NoteRepeatOnOffBit != 0,
      (b & NoteRepeatMask) >> 5)
  }

  /** The step byte a step stands for, with bits 1 and 7 clear: the inverse of DecodeStep. */
  function EncodeStep(s: StepData): bv8
    requires s.repeat <= 3
  {
    (if s.stepOnOff then OnOffBit else 0)
    | (if s.probabilityOnOff then ProbabilityBit else 0)
    | (if s.flamOnOff then FlamBit else 0)
    | (if s.repeatOnOff then NoteRepeatOnOffBit else 0)
    | (s.repeat << 5)
  }

  /** The step masks are pairwise disjoint and leave bits 1 and 7 unused. */
  lemma StepMasksDisjoint()
    ensures OnOffBit & ProbabilityBit == 0 && OnOffBit & FlamBit == 0 && OnOffBit & NoteRepeatOnOffBit == 0 && OnOffBit & NoteRepeatMask == 0
    ensures ProbabilityBit & FlamBit == 0 && ProbabilityBit & NoteRepeatOnOffBit == 0 && ProbabilityBit & NoteRepeatMask == 0
    ensures FlamBit & NoteRepeatOnOffBit == 0 && FlamBit & NoteRepeatMask == 0 && NoteRepeatOnOffBit & NoteRepeatMask == 0
    ensures OnOffBit | ProbabilityBit | FlamBit | NoteRepeatOnOffBit | NoteRepeatMask == UsedStepBits
  {
  }

  /** Decoding an encoded step gives the step back. */
  lemma DecodeEncode(s: StepData)
    requires s.repeat <= 3
    ensures DecodeStep(EncodeStep(s)) == s
  {
    var b := EncodeStep(s);
    assert (b & NoteRepeatMask) >> 5 == s.repeat;
  }

  /** Encoding a decoded step byte gives back the bits the decoder reads. */
  lemma EncodeDecode(b: bv8)
    ensures EncodeStep(DecodeStep(b)) == b & UsedStepBits
  {
    var s := DecodeStep(b);
    assert s.repeat << 5 == b & NoteRepeatMask;
  }

  /** Two step bytes decode alike exactly when they agree on every bit but 1 and 7. */
  lemma DecodeStepIgnoresUnusedBits(a: bv8, b: bv8)
    ensures DecodeStep(a) == DecodeStep(b) <==> a & UsedStepBits == b & UsedStepBits
  {
    EncodeDecode(a);
    EncodeDecode(b);
    if a & UsedStepBits == b & UsedStepBits {
      DecodeEncode(DecodeStep(a));
      DecodeEncode(DecodeStep(b));
    }
  }

  // ----- The pattern -----

  /** The offset of step `step` of track `track`. */
  function StepOffset(track: nat, step: nat): nat
  {
    AccentSteps + track * StepsPerTrack + step
  }

  /** The guard of getPattern: exactly 889 bytes, data-format version 0, product variant 8. */
  predicate IsPatternData(data: seq<bv8>)
  {
    |data| == PatternDataSize && data[PatternDataVersion] == 0 && data[ProductVariant] == PatternProductVariant
  }

  /** The twelve tracks occupy bytes 2 to 769, one after the other, and no two steps share a byte. */
  lemma TrackLayout(t1: nat, s1: nat, t2: nat, s2: nat)
    requires t1 < TrackCount && s1 < StepsPerTrack && t2 < TrackCount && s2 < StepsPerTrack
    ensures AccentSteps <= StepOffset(t1, s1) < PatternLength
    ensures StepOffset(t1, s1) == StepOffset(t2, s2) ==> t1 == t2 && s1 == s2
  {
    if t1 < t2 {
      assert t1 * 64 + 64 <= t2 * 64;
    } else if t2 < t1 {
      assert t2 * 64 + 64 <= t1 * 64;
    }
  }

  /** The pattern parameters lie after the track and random-mode bytes and inside the 889 bytes. */
  lemma ParameterLayout()
    ensures PatternLength < RandomOnOff < Next == Tempo
    ensures Tempo < Swing < Probability < FlamLevel < FilterMode < FilterEnable < FilterAutomation < FilterSteps
    ensures FilterSteps + 64 == PolymeterOnOff < StepSize < AutoAdvance < FXBusSends < PatternDataSize
  {
  }

  /** The 64 steps of one track. */
  function DecodeTrack(data: seq<bv8>, track: nat): (steps: seq<StepData>)
    requires |data| == PatternDataSize && track < TrackCount
    ensures |steps| == StepsPerTrack
    ensures forall s :: 0 <= s < StepsPerTrack ==> steps[s] == DecodeStep(data[AccentSteps + 64 * track + s])
  {
    seq(StepsPerTrack, s requires 0 <= s < StepsPerTrack => DecodeStep(data[StepOffset(track, s)]))
  }

  /** What getPattern yields: nothing unless the guard holds, else the decoded tracks and parameters. */
  function DecodePattern(data: seq<bv8>): (r: Option<PatternData>)
    ensures r.Some? <==> IsPatternData(data)
    ensures r.Some? ==>
      && |r.value.tracks| == TrackCount
      && (forall t :: 0 <= t < TrackCount ==> |r.value.tracks[t]| == StepsPerTrack)
      && (forall t, s :: 0 <= t < TrackCount && 0 <= s < StepsPerTrack ==> r.value.tracks[t][s] == DecodeStep(data[AccentSteps + 64 * t + s]))
      && r.value.filterSteps == data[FilterSteps .. FilterSteps + 64]
    ensures r.Some? ==>
      && r.value.tempo == data[Tempo] && r.value.swing == data[Swing] && r.value.probability == data[Probability]
      && r.value.flamLevel == data[FlamLevel] && r.value.filterMode == data[FilterMode]
      && r.value.filterOnOff == (data[FilterEnable] != 0) && r.value.filterAutomationOnOff == (data[FilterAutomation] != 0)
      && r.value.polymeterOnOff == (data[PolymeterOnOff] != 0) && r.value.stepSize == data[StepSize]
      && r.value.autoAdvanceOnOff == (data[AutoAdvance] != 0)
  {
    if !IsPatternData(data) then None
    else
      Some(PatternData(
        seq(TrackCount, t requires 0 <= t < TrackCount => DecodeTrack(data, t)),
        data[Tempo],
        data[Swing],
        data[Probability],
        data[FlamLevel],
        data[FilterMode],
        data[FilterEnable] != 0,
        data[FilterAutomation] != 0,
        data[FilterSteps .. FilterSteps + 64],
        data[PolymeterOnOff] != 0,
        data[StepSize],
        data[AutoAdvance] != 0))
  }

  /**
   * getPattern: checks the version bytes and the size, then fills the twelve
   * tracks step by step and reads the parameters.
   */
  method GetPattern(data: seq<bv8>) returns (r: Option<PatternData>)
    ensures r == DecodePattern(data)
  {
    if !(|data| >= 2 && data[PatternDataVersion] == 0 && data[ProductVariant] == PatternProductVariant) || |data| != PatternDataSize {
      return None;
    }
    var tracks: seq<seq<StepData>> := [];
    for track := 0 to TrackCount
      invariant |tracks| == track
      invariant forall t :: 0 <= t < track ==> tracks[t] == DecodeTrack(data, t)
    {
      var steps := GetTrack(data, track);
      tracks := tracks + [steps];
    }
    assert tracks == seq(TrackCount, t requires 0 <= t < TrackCount => DecodeTrack(data, t));
    var filterSteps: seq<bv8> := [];
    for i := 0 to 64
      invariant filterSteps == data[FilterSteps .. FilterSteps + i]
    {
      filterSteps := filterSteps + [data[FilterSteps + i]];
    }
    r := Some(PatternData(
      tracks,
      data[Tempo],
      data[Swing],
      data[Probability],
      data[FlamLevel],
      data[FilterMode],
      data[FilterEnable] != 0,
      data[FilterAutomation] != 0,
      filterSteps,
      data[PolymeterOnOff] != 0,
      data[StepSize],
      data[AutoAdvance] != 0));
  }

  /** The inner loop of getPattern: the 64 steps of one track. */
  method GetTrack(data: seq<bv8>, track: nat) returns (steps: seq<StepData>)
    requires |data| == PatternDataSize && track < TrackCount
    ensures steps == DecodeTrack(data, track)
  {
    steps := [];
    for step := 0 to StepsPerTrack
      invariant |steps| == step
      invariant forall s :: 0 <= s < step ==> steps[s] == DecodeStep(data[StepOffset(track, s)])
    {
      var toDecode := data[AccentSteps + track * 64 + step];
      var stepData := StepData(
        toDecode & OnOffBit != 0,
        toDecode & ProbabilityBit != 0,
        toDecode & FlamBit != 0,
        toDecode & NoteRepeatOnOffBit != 0,
        (toDecode & NoteRepeatMask) >> 5);
      steps := steps + [stepData];
    }
  }
}
