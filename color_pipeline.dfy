/** The per-target colour computation of processNextColor, and the fields of the
    playback state that the beat handler reads. The palette cursor comes from the time
    elapsed since the target's last accepted beat, the shift from the current section,
    and the transition towards the shifted colour from an external generator. */
module ColorPipeline {
  import opened Wrappers
  import opened Timing
  import opened ColorShift

  /** Whether a visualizer takes part; every state other than `on` is skipped alike. */
  datatype VisualizerState = On | Off

  /** The colour configuration of one visualizer, or the one shared in synced mode:
      its confidence band, sensitivities, tick rate (ms), palette and the instant (ms)
      of its last accepted beat. */
  datatype ColorInfo = ColorInfo(
    state: VisualizerState,
    minBeatConf: real,
    maxBeatConf: real,
    loudnessSensibility: real,
    tempoSensibility: real,
    colorTickRate: int,
    palette: seq<Color>,
    lastBeatTimestamp: int)

  datatype Beat = Beat(confidence: real, duration: int)

  datatype Section = Section(loudness: real, tempo: real)

  /** What the handler reads of the playback snapshot: the current beat and section,
      if any, and the track-wide means used as the reference. */
  datatype TrackInfo = TrackInfo(
    activeBeat: Option<Beat>,
    activeSection: Option<Section>,
    meanLoudness: real,
    meanTempo: real)

  /** What one beat contributes to every target's computation. */
  datatype BeatParamsInfo = BeatParamsInfo(activeBeatConf: real, activeBeatDur: int, colorShiftParams: ShiftParams)

  /** The colour maths this core calls but does not own: `analogous` (the two hues at
      plus and minus an angle) and `makeTimeTransitionOffset` (the interpolated sequence
      from the palette entry at an index to a target colour, over a duration, at a tick
      rate; its optional time ratio is never passed). */
  datatype ColorMath = ColorMath(
    analogous: (Color, real) -> Analogous,
    makeTimeTransitionOffset: (seq<Color>, Color, int, int, int) -> seq<Color>)

  /** The beat's confidence and duration, with the track-wide mean loudness and tempo
      as the reference the section is compared against. */
  function GetBeatParamsInfo(trackInfo: TrackInfo): (info: BeatParamsInfo)
    requires trackInfo.activeBeat.Some?
    ensures info.activeBeatConf == trackInfo.activeBeat.value.confidence
    ensures info.activeBeatDur == trackInfo.activeBeat.value.duration
    ensures info.colorShiftParams == ShiftParams(trackInfo.meanLoudness, trackInfo.meanTempo)
  {
    var activeBeat := trackInfo.activeBeat.value;
    BeatParamsInfo(activeBeat.confidence, activeBeat.duration,
                   ShiftParams(trackInfo.meanLoudness, trackInfo.meanTempo))
  }

  /** The confidence band, bounds included. The two strategies write the test in
      opposite forms: the per-visualizer one accepts `min <= conf && conf <= max`, the
      broadcast one rejects `conf < min || conf > max`; both describe this band. */
  predicate InBand(colorInfo: ColorInfo, confidence: real): (inBand: bool)
    ensures inBand <==> !(confidence < colorInfo.minBeatConf || confidence > colorInfo.maxBeatConf)
    ensures confidence == colorInfo.minBeatConf <= colorInfo.maxBeatConf ==> inBand
    ensures colorInfo.minBeatConf <= colorInfo.maxBeatConf == confidence ==> inBand
  {
    colorInfo.minBeatConf <= confidence <= colorInfo.maxBeatConf
  }

  /** The section's features as shift parameters, absent without a section. */
  function SectionShiftParams(section: Option<Section>): (sectionParams: Option<ShiftParams>)
    ensures sectionParams.None? <==> section.None?
    ensures section.Some? ==> sectionParams.value == ShiftParams(section.value.loudness, section.value.tempo)
  {
    match section
    case None => None
    case Some(s) => Some(ShiftParams(s.loudness, s.tempo))
  }

  /** The palette lookup reads a defined entry: a positive tick rate and a non-empty
      palette (otherwise the index is NaN), and a non-negative index. An anchor in the
      future usually gives a negative index and an undefined entry, but when the elapsed
      ticks are a multiple of the palette length JavaScript's `%` gives `-0`, which
      reads the first entry. */
  predicate Indexable(colorInfo: ColorInfo, now: int) {
    && colorInfo.colorTickRate > 0
    && |colorInfo.palette| > 0
    && PaletteIndex(now, colorInfo.lastBeatTimestamp, colorInfo.colorTickRate, |colorInfo.palette|) >= 0
  }

  /** What the computation needs to be defined at all: a readable palette entry, and a
      section without zero features (the code has no guard against dividing by them). */
  predicate Processable(colorInfo: ColorInfo, now: int, section: Option<Section>) {
    && Indexable(colorInfo, now)
    && (section.Some? ==> Divisible(ShiftParams(section.value.loudness, section.value.tempo)))
  }

  /** The palette entry the beat starts from. */
  function StartIndex(colorInfo: ColorInfo, now: int): (index: nat)
    requires Indexable(colorInfo, now)
    ensures index < |colorInfo.palette|
  {
    PaletteIndex(now, colorInfo.lastBeatTimestamp, colorInfo.colorTickRate, |colorInfo.palette|)
  }

  /** Every anchor not in the future gives a readable entry. */
  lemma PastAnchorIndexable(colorInfo: ColorInfo, now: int)
    requires colorInfo.colorTickRate > 0 && |colorInfo.palette| > 0
    requires colorInfo.lastBeatTimestamp <= now
    ensures Indexable(colorInfo, now)
  {
  }

  /** An anchor exactly one palette cycle ahead: `-3 % 3` is `-0`, so the first entry is
      read; one tick less ahead gives `-2`, an undefined entry. */
  lemma FutureAnchorExample(colorInfo: ColorInfo)
    requires colorInfo.colorTickRate == 1000 && |colorInfo.palette| == 3
    ensures colorInfo.lastBeatTimestamp == 3000 ==> Indexable(colorInfo, 0) && StartIndex(colorInfo, 0) == 0
    ensures colorInfo.lastBeatTimestamp == 2000 ==> !Indexable(colorInfo, 0)
  {
  }

  /** The transition a target is sent: from its palette entry at the time-derived index
      towards that entry shifted by the 30-degree base angle as the section modulates it,
      spread over `duration` at the target's tick rate. */
  function ProcessNextColor(math: ColorMath, colorInfo: ColorInfo, now: int, duration: int,
                            section: Option<Section>, refShiftParams: ShiftParams,
                            shiftWeights: ShiftParams): (trans: seq<Color>)
    requires Processable(colorInfo, now, section)
    ensures var index := StartIndex(colorInfo, now);
      && 0 <= index < |colorInfo.palette|
      && trans == math.makeTimeTransitionOffset(
           colorInfo.palette,
           CalculateColorShift(math.analogous, colorInfo.palette[index], BaseShiftAlpha,
                               SectionShiftParams(section), refShiftParams, shiftWeights),
           index, duration, colorInfo.colorTickRate)
  {
    var index := StartIndex(colorInfo, now);
    var sectionParams := SectionShiftParams(section);
    var color := CalculateColorShift(math.analogous, colorInfo.palette[index], BaseShiftAlpha,
                                     sectionParams, refShiftParams, shiftWeights);
    math.makeTimeTransitionOffset(colorInfo.palette, color, index, duration, colorInfo.colorTickRate)
  }

  /** Without a section the target colour is the 30-degree left analogue of the start
      entry, whatever the reference and the weights. */
  lemma NoSectionUsesBaseRotation(math: ColorMath, colorInfo: ColorInfo, now: int, duration: int,
                                  ref1: ShiftParams, weights1: ShiftParams,
                                  ref2: ShiftParams, weights2: ShiftParams)
    requires Processable(colorInfo, now, None)
    ensures ProcessNextColor(math, colorInfo, now, duration, None, ref1, weights1)
         == ProcessNextColor(math, colorInfo, now, duration, None, ref2, weights2)
         == math.makeTimeTransitionOffset(
              colorInfo.palette,
              math.analogous(colorInfo.palette[StartIndex(colorInfo, now)], 30.0).left,
              StartIndex(colorInfo, now), duration, colorInfo.colorTickRate)
  {
  }

  /** A section whose modulation drives the angle below zero leaves the start entry as
      the target colour. */
  lemma NegativeShiftTargetsStartColor(math: ColorMath, colorInfo: ColorInfo, now: int, duration: int,
                                       section: Section, refShiftParams: ShiftParams,
                                       shiftWeights: ShiftParams)
    requires Processable(colorInfo, now, Some(section))
    requires EffectiveShift(BaseShiftAlpha, ShiftParams(section.loudness, section.tempo),
                            refShiftParams, shiftWeights) < 0.0
    ensures ProcessNextColor(math, colorInfo, now, duration, Some(section), refShiftParams, shiftWeights)
         == math.makeTimeTransitionOffset(
              colorInfo.palette, colorInfo.palette[StartIndex(colorInfo, now)],
              StartIndex(colorInfo, now), duration, colorInfo.colorTickRate)
  {
  }
}
