# Beat-to-colour dispatch of the Spotify visualizer server, in Dafny

This project models the decision layer that runs on every detected beat of the playing
track (`src/server/visualizer/colors.ts`). When a beat is active, the handler takes the
beat's confidence and duration. It uses the track's mean loudness and tempo as the
reference. Then it takes one of two strategies:

- **Unsynced.** Every visualizer whose state is `on` and whose confidence band
  `[minBeatConf, maxBeatConf]` contains the confidence (bounds included) is handled in
  list order. Its lead time is `-globalDelay - delay`. It is sent a transition over the
  beat's duration plus that lead time. Its `lastBeatTimestamp` is then set to `now`.
  Every other visualizer is left alone.
- **Synced.** The shared colour configuration is used alone. If the confidence lies in
  its band, one transition over the unshortened beat duration is broadcast and the
  shared `lastBeatTimestamp` is set to `now`. Otherwise nothing happens. The shared
  configuration's on/off state is not consulted.

Each transition starts from a palette entry. The entry's index is
`floor((now - lastBeatTimestamp) / colorTickRate) % length`, where `%` is JavaScript's
truncating remainder. The target colour is that entry rotated by a hue angle. The angle
starts at 30 degrees. When a section is active, the angle is modulated by
`(reference / section - 1) * weight` for loudness and for tempo. A negative angle keeps
the entry's own colour.

Modules, leaf first:

- `Wrappers` (`wrappers.dfy`): `Option`.
- `Timing` (`timing.dfy`): `Math.floor` of a quotient, JavaScript's `%`, and the palette
  index. It proves the index range, periodicity, one-step advance, and index 0 within
  the first tick after the anchor. `BeatDispatch.AcceptedBeatReanchors` builds on that
  last fact for a visualizer that has just taken a beat.
- `ColorShift` (`color_shift.dfy`): `calculateColorShift` and the effective angle.
- `ColorPipeline` (`color_pipeline.dfy`): the state fields the handler reads,
  `getBeatParamsInfo` and `processNextColor`.
- `BeatDispatch` (`beat_dispatch.dfy`): the imperative part. It has the classes
  `Visualizer` and `State`, whose fields are updated in place, and a `Server` whose
  `log` records every `sendData`/`broadcastData` call. It also holds `FireBeat`,
  `SendBeat`, `SendBeatTo` (the body of the `forEach` callback) and `BroadcastBeat`.
  Each method is proved against a pure plan: `UnsyncedPlan` or `BroadcastPlan` says
  which messages are appended, and `Stamped` says what each configuration becomes.
  Lemmas then state what those plans promise.

The colour-wheel maths (`analogous`) and the transition generator
(`makeTimeTransitionOffset`) are not part of this model. They appear as the two opaque
function fields of `ColorMath`. The clock is the parameter `now`.

The model follows the code on these points, which are easy to misread:

- The base angle is always 30 degrees. The `baseShiftAlpha` parameter is never passed.
  There is no per-target base angle.
- There is no guard against a zero section loudness or tempo. The model requires them
  non-zero (`Processable`) rather than inventing a fallback.
- An anchor after `now` does not always break the palette lookup. JavaScript's `%`
  can give `-0`, which reads the first entry, so the model requires a non-negative index
  rather than a past anchor.
- The confidence bounds are inclusive.
- A louder section does not always dampen the rotation. By `ModifierSign`, a
  modifier's sign follows the ratio `reference / section`. With negative loudness values
  (decibels), a louder section gives a ratio above one. For positive tempos a faster
  section does dampen it (`FasterSectionDampens`), unless the tempo weight is negative.

## Model

| member | source | states |
|---|---|---|
| `Timing.FloorDiv` | src/server/visualizer/colors.ts:105-107 | `Math.floor(a / b)` for a positive divisor is the q with `b*q <= a < b*(q+1)` |
| `Timing.JsRem` | src/server/visualizer/colors.ts:104-108 | JavaScript's `%` takes the dividend's sign, stays within the modulus in magnitude and differs from the dividend by a multiple of the modulus |
| `Timing.PaletteIndex` | src/server/visualizer/colors.ts:104-108 | the index is in `[0, length)` when `now >= lastBeatTimestamp`, and in `(-length, length)` always |
| `Timing.PaletteIndexPeriodic` | src/server/visualizer/colors.ts:104-108 | the index is periodic in elapsed time with period `length * colorTickRate` |
| `Timing.PaletteIndexAdvances` | src/server/visualizer/colors.ts:104-108 | one more tick of elapsed time moves the index one entry forward, wrapping round |
| `Timing.PaletteIndexFirstTick` | src/server/visualizer/colors.ts:104-108 | within the first tick after the anchor the index is 0 |
| `Timing.PaletteIndexDependsOnElapsed` | src/server/visualizer/colors.ts:104-108 | the index depends only on `now - lastBeatTimestamp` |
| `Timing.PaletteIndexExample` | src/server/visualizer/colors.ts:104-108 | three colours, 1000 ms tick, anchor 2500 ms back: index 2 |
| `ColorShift.Modifier` | src/server/visualizer/colors.ts:140-141 | a zero weight, or a section equal to the reference, gives a zero modifier |
| `ColorShift.CalculateColorShift` | src/server/visualizer/colors.ts:132-160 | no section: the left analogue at the initial angle; with a section: the start colour when the effective angle is negative, else its left analogue at that angle |
| `ColorShift.EffectiveShift` | src/server/visualizer/colors.ts:140-143 | zero weights, or a section equal to the reference, leave the base angle unchanged; a zero base angle stays zero |
| `ColorShift.EffectiveShiftFactored` | src/server/visualizer/colors.ts:140-143 | the effective angle is `initialShift * (1 + loudnessMod + tempoMod)` |
| `ColorShift.ShiftNegativeIff` | src/server/visualizer/colors.ts:143-151 | with a positive base angle the shift is negative exactly when the two modifiers sum below -1 |
| `ColorShift.NoSectionIgnoresReference` | src/server/visualizer/colors.ts:136-139 | without a section the result is the same for every reference and weights |
| `ColorShift.ModifierSign` | src/server/visualizer/colors.ts:140-141 | with a positive weight a modifier is positive iff `reference / section > 1` and negative iff `< 1` |
| `ColorShift.FasterSectionDampens` | src/server/visualizer/colors.ts:140-143 | for positive tempos and non-negative weight and angle, a faster section never gives a larger angle |
| `ColorShift.ExampleUnmodulated` | src/server/visualizer/colors.ts:132-154 | section equal to reference with zero weights: the 30-degree left analogue |
| `ColorShift.ExampleHalvedShift` | src/server/visualizer/colors.ts:140-143 | section twice as loud as reference, loudness weight 1: 30 degrees become 15 |
| `ColorShift.ExampleNegativeShiftKeepsStart` | src/server/visualizer/colors.ts:149-151 | a loudness modifier of -2 makes the angle negative and keeps the start colour |
| `ColorPipeline.GetBeatParamsInfo` | src/server/visualizer/colors.ts:85-99 | the beat's confidence and duration, with the track's mean loudness and tempo as reference |
| `ColorPipeline.InBand` | src/server/visualizer/colors.ts:38-41 | the band test holds exactly when the broadcast's rejection test at line 65 (`conf < min` or `conf > max`) fails; either bound of a non-empty band is inside it |
| `ColorPipeline.SectionShiftParams` | src/server/visualizer/colors.ts:111-117 | present exactly when a section is, with its loudness and tempo |
| `ColorPipeline.StartIndex` | src/server/visualizer/colors.ts:104-108 | the start index is a valid palette position |
| `ColorPipeline.PastAnchorIndexable` | src/server/visualizer/colors.ts:104-108 | with a positive tick rate and a non-empty palette, every anchor not after `now` gives a readable entry |
| `ColorPipeline.FutureAnchorExample` | src/server/visualizer/colors.ts:104-108 | an anchor one palette cycle ahead reads the first entry (`-3 % 3` is `-0`); one tick less ahead reads no entry |
| `ColorPipeline.ProcessNextColor` | src/server/visualizer/colors.ts:101-130 | the transition goes from the palette entry at the time-derived index to that entry shifted with base angle 30, over the given duration at the target's tick rate |
| `ColorPipeline.NoSectionUsesBaseRotation` | src/server/visualizer/colors.ts:101-119 | without a section the target colour is the 30-degree left analogue of the start entry, whatever the reference and weights |
| `ColorPipeline.NegativeShiftTargetsStartColor` | src/server/visualizer/colors.ts:119-127 | a negative effective angle makes the start entry itself the target colour |
| `BeatDispatch.Server.SendData` | src/server/visualizer/colors.ts:55 | a per-visualizer send appends one message with the transition, palette and delay |
| `BeatDispatch.Server.BroadcastData` | src/server/visualizer/colors.ts:81 | a broadcast appends one message with the shared configuration's transition |
| `BeatDispatch.Accepts` | src/server/visualizer/colors.ts:37-41 | a visualizer that is not on takes no beat; one that is on takes exactly the beats in its band |
| `BeatDispatch.TargetSend` | src/server/visualizer/colors.ts:43-55 | a send to that visualizer with delay `-globalDelay - delay`, its palette, and the transition over `duration + delay` weighted by its own sensitivities |
| `BeatDispatch.UnsyncedPlan` | src/server/visualizer/colors.ts:36-59 | the sends of one beat for the first `handled` list entries, in list order: each entry adds at most its own send after the earlier ones', so at most one message per list entry |
| `BeatDispatch.Stamped` | src/server/visualizer/colors.ts:56 | only `lastBeatTimestamp` changes, and it becomes `now` exactly when the visualizer accepts the beat |
| `BeatDispatch.BroadcastPlan` | src/server/visualizer/colors.ts:65-81 | one broadcast of the shared configuration when the confidence is in its band, none otherwise |
| `BeatDispatch.UnsyncedPlanOnlySends` | src/server/visualizer/colors.ts:36-59 | the unsynced strategy never broadcasts and only addresses visualizers among the entries handled so far |
| `BeatDispatch.UnsyncedPlanSendsOnceIffAccepted` | src/server/visualizer/colors.ts:36-59 | in a list without repeats, each handled visualizer gets exactly one send iff it is on and the confidence is in its inclusive band, else none |
| `BeatDispatch.UnsyncedPlanSendContents` | src/server/visualizer/colors.ts:43-55 | that send carries delay `-globalDelay - delay`, its palette, and a transition over `duration + delay` with its own weights |
| `BeatDispatch.BroadcastPlanShape` | src/server/visualizer/colors.ts:62-83 | in band: exactly the broadcast over the unshortened beat duration; out of band: nothing; the on/off state is irrelevant |
| `BeatDispatch.AcceptedBeatReanchors` | src/server/visualizer/colors.ts:56 | after accepting a beat at `now`, the next beat within one tick starts at palette entry 0 |
| `BeatDispatch.State.FireBeat` | src/server/visualizer/colors.ts:18-31 | no active beat: no message and no change; otherwise exactly the unsynced or the broadcast plan by `isSynced`, and the other strategy's state is untouched |
| `BeatDispatch.State.SendBeat` | src/server/visualizer/colors.ts:33-60 | appends `UnsyncedPlan` to the log and stamps exactly the accepting visualizers with `now` |
| `BeatDispatch.State.SendBeatTo` | src/server/visualizer/colors.ts:37-57 | one visualizer: its send and stamp if it accepts the beat, nothing otherwise |
| `BeatDispatch.State.BroadcastBeat` | src/server/visualizer/colors.ts:62-83 | appends `BroadcastPlan` to the log and stamps the shared configuration with `now` iff the confidence is in its band |

## Left out

- `sendData` and `broadcastData` (the socket transport) are not part of this model.
  `Server` records the calls made to them in order. The `visualizerServerSocket`
  argument of the broadcast is not recorded.
- `analogous` and `makeTimeTransitionOffset` (the hue and interpolation maths) are not
  part of this model. They are opaque function parameters, so nothing is proved about
  the colours they produce.
- `Date.now()` becomes the parameter `now`. The model uses one instant for every
  target of a beat, for both its palette index and its stamp. In the source each target
  reads the clock later than the previous target did. Each target also stamps later than
  its own index read, by the colour computation and the send that run between them.
- `console.log` output is not modelled. It has no effect on behaviour.
- The commented-out random choice between the left and right analogue is not
  modelled, because it is dead code.
- The `timeRatio` and `baseShiftAlpha` parameters of `processNextColor` are never
  passed. The model fixes them at their defaults: no time ratio, and 30 degrees.
- JavaScript numbers are not modelled as floating point. Times, delays, durations and
  tick rates are integer milliseconds. Confidence, loudness, tempo, weights and angles
  are `real`. NaN and Infinity are not modelled.
- `ColorPipeline.ProcessNextColor`: requires `Processable`, which excludes three kinds
  of input. The dispatch methods require it only for the targets that accept the beat.
  - A zero tick rate or an empty palette gives a NaN index and an undefined entry.
  - A negative index, from an anchor after `now`, reads an undefined entry. When the
    elapsed ticks are a multiple of the palette length, JavaScript's `%` gives `-0`
    instead, which reads the first entry. The model admits that case
    (`FutureAnchorExample`).
  - A zero section loudness or tempo gives an infinite or NaN angle. A `-Infinity`
    angle returns the start colour. A `+Infinity` or NaN angle is passed on to
    `analogous`. The model has no infinities or NaN, so it excludes all three.
- `BeatDispatch.State.FireBeat`: when a beat is active in unsynced mode, requires each
  visualizer to appear once in the list. If one appeared twice, the source would send to
  it twice, and the second send would see the first stamp. The other branches do not
  require it.
- Each visualizer's colour configuration is held by value. Two visualizers sharing one
  configuration object are not modelled.
- The visualizer state enumeration is reduced to `On` and `Off`. The source only tests
  for `on`.
