/** calculateColorShift: the hue rotation applied to the palette colour a beat starts
    from. The rotation angle is the base angle, modulated by how the track's mean
    loudness and tempo compare with the current section's, each weighted by the
    visualizer's sensitivity. The colour-wheel maths itself (`analogous`) lives outside
    this core and is taken as a parameter. */
module ColorShift {
  import opened Wrappers

  /** A colour as the hex string the palette stores. */
  type Color = string

  /** The two hues at plus and minus an angle from a colour on the colour wheel. */
  datatype Analogous = Analogous(left: Color, right: Color)

  /** Loudness and tempo: of a section, of the track's mean, or the weights applied to them. */
  datatype ShiftParams = ShiftParams(loudness: real, tempo: real)

  /** The base rotation in degrees. processNextColor's `baseShiftAlpha` defaults to it
      and neither caller passes another value. */
  const BaseShiftAlpha: real := 30.0

  /** A section whose features can be divided by: the code has no guard against zero. */
  predicate Divisible(sectionParams: ShiftParams) {
    sectionParams.loudness != 0.0 && sectionParams.tempo != 0.0
  }

  /** `(reference / section - 1) * weight`: the signed deviation of the track-wide
      reference from the section, scaled by a sensitivity weight. */
  function Modifier(reference: real, section: real, weight: real): (m: real)
    requires section != 0.0
    ensures weight == 0.0 ==> m == 0.0
    ensures reference == section ==> m == 0.0
  {
    (reference / section - 1.0) * weight
  }

  /** The rotation angle once the section is known: `shift + shift*loudnessMod + shift*tempoMod`.
      Zero sensitivities, or a section that matches the track-wide reference, leave the
      base angle unchanged, and a zero base angle stays zero. */
  function EffectiveShift(initialShift: real, sectionParams: ShiftParams, refParams: ShiftParams,
                          shiftWeights: ShiftParams): (shift: real)
    requires Divisible(sectionParams)
    ensures shiftWeights == ShiftParams(0.0, 0.0) ==> shift == initialShift
    ensures sectionParams == refParams ==> shift == initialShift
    ensures initialShift == 0.0 ==> shift == 0.0
  {
    var loudnessMod := Modifier(refParams.loudness, sectionParams.loudness, shiftWeights.loudness);
    var tempoMod := Modifier(refParams.tempo, sectionParams.tempo, shiftWeights.tempo);
    initialShift + initialShift * loudnessMod + initialShift * tempoMod
  }

  /** The colour the beat moves towards, from `startingHexColor`. */
  function CalculateColorShift(analogous: (Color, real) -> Analogous, startingHexColor: Color,
                               initialShift: real, sectionParams: Option<ShiftParams>,
                               refParams: ShiftParams, shiftWeights: ShiftParams): (color: Color)
    requires sectionParams.Some? ==> Divisible(sectionParams.value)
    ensures sectionParams.None? ==> color == analogous(startingHexColor, initialShift).left
    ensures sectionParams.Some? ==>
      var shift := EffectiveShift(initialShift, sectionParams.value, refParams, shiftWeights);
      color == if shift < 0.0 then startingHexColor else analogous(startingHexColor, shift).left
  {
    match sectionParams
    case None => analogous(startingHexColor, initialShift).left
    case Some(section) =>
      var shift := EffectiveShift(initialShift, section, refParams, shiftWeights);
      if shift < 0.0 then startingHexColor else analogous(startingHexColor, shift).left
  }

  /** The effective angle is the base angle scaled by one plus both modifiers. */
  lemma EffectiveShiftFactored(initialShift: real, sectionParams: ShiftParams, refParams: ShiftParams,
                               shiftWeights: ShiftParams)
    requires Divisible(sectionParams)
    ensures EffectiveShift(initialShift, sectionParams, refParams, shiftWeights)
         == initialShift * (1.0 + Modifier(refParams.loudness, sectionParams.loudness, shiftWeights.loudness)
                                + Modifier(refParams.tempo, sectionParams.tempo, shiftWeights.tempo))
  {
  }

  /** With a positive base angle the rotation is suppressed exactly when the two
      modifiers together fall below minus one. */
  lemma ShiftNegativeIff(initialShift: real, sectionParams: ShiftParams, refParams: ShiftParams,
                         shiftWeights: ShiftParams)
    requires initialShift > 0.0 && Divisible(sectionParams)
    ensures (EffectiveShift(initialShift, sectionParams, refParams, shiftWeights) < 0.0)
        <==> (Modifier(refParams.loudness, sectionParams.loudness, shiftWeights.loudness)
              + Modifier(refParams.tempo, sectionParams.tempo, shiftWeights.tempo) < -1.0)
  {
    var loudnessMod := Modifier(refParams.loudness, sectionParams.loudness, shiftWeights.loudness);
    var tempoMod := Modifier(refParams.tempo, sectionParams.tempo, shiftWeights.tempo);
    var factor := 1.0 + loudnessMod + tempoMod;
    EffectiveShiftFactored(initialShift, sectionParams, refParams, shiftWeights);
    var shift := EffectiveShift(initialShift, sectionParams, refParams, shiftWeights);
    assert shift == initialShift * factor;
    if factor < 0.0 {
      NegativeProduct(initialShift, factor);
      assert shift < 0.0;
    } else {
      NonNegativeProduct(initialShift, factor);
      assert shift >= 0.0;
    }
  }

  lemma NegativeProduct(x: real, y: real)
    requires x > 0.0 && y < 0.0
    ensures x * y < 0.0
  {
    assert x * (-y) > 0.0;
  }

  /** Without section data the result is the base rotation, whatever the reference
      and the weights are. */
  lemma NoSectionIgnoresReference(analogous: (Color, real) -> Analogous, startingHexColor: Color,
                                  initialShift: real, ref1: ShiftParams, weights1: ShiftParams,
                                  ref2: ShiftParams, weights2: ShiftParams)
    ensures CalculateColorShift(analogous, startingHexColor, initialShift, None, ref1, weights1)
         == CalculateColorShift(analogous, startingHexColor, initialShift, None, ref2, weights2)
         == analogous(startingHexColor, initialShift).left
  {
  }

  /** With a positive weight a modifier amplifies the rotation exactly when the
      reference exceeds the section by ratio, and dampens it exactly when it falls short. */
  lemma ModifierSign(reference: real, section: real, weight: real)
    requires section != 0.0 && weight > 0.0
    ensures Modifier(reference, section, weight) > 0.0 <==> reference / section > 1.0
    ensures Modifier(reference, section, weight) < 0.0 <==> reference / section < 1.0
  {
    var d := reference / section - 1.0;
    if d > 0.0 {
      assert d * weight > 0.0;
    } else if d < 0.0 {
      assert (-d) * weight > 0.0;
    } else {
      assert d * weight == 0.0;
    }
  }

  /** For positive features and weight, a higher section tempo never gives a larger
      angle: a faster section dampens the rotation, a slower one amplifies it. */
  lemma FasterSectionDampens(initialShift: real, section1: ShiftParams, section2: ShiftParams,
                             refParams: ShiftParams, shiftWeights: ShiftParams)
    requires initialShift >= 0.0 && shiftWeights.tempo >= 0.0 && refParams.tempo > 0.0
    requires Divisible(section1) && Divisible(section2)
    requires section1.loudness == section2.loudness
    requires 0.0 < section1.tempo <= section2.tempo
    ensures EffectiveShift(initialShift, section2, refParams, shiftWeights)
         <= EffectiveShift(initialShift, section1, refParams, shiftWeights)
  {
    var r1 := refParams.tempo / section1.tempo;
    var r2 := refParams.tempo / section2.tempo;
    assert r2 <= r1 by { RatioAntitone(refParams.tempo, section1.tempo, section2.tempo); }
    var m1 := Modifier(refParams.tempo, section1.tempo, shiftWeights.tempo);
    var m2 := Modifier(refParams.tempo, section2.tempo, shiftWeights.tempo);
    assert m2 <= m1 by {
      assert m1 - m2 == (r1 - r2) * shiftWeights.tempo;
      NonNegativeProduct(r1 - r2, shiftWeights.tempo);
    }
    EffectiveShiftFactored(initialShift, section1, refParams, shiftWeights);
    EffectiveShiftFactored(initialShift, section2, refParams, shiftWeights);
    var l := Modifier(refParams.loudness, section1.loudness, shiftWeights.loudness);
    assert initialShift * (1.0 + l + m1) - initialShift * (1.0 + l + m2) == initialShift * (m1 - m2);
    NonNegativeProduct(initialShift, m1 - m2);
  }

  lemma NonNegativeProduct(x: real, y: real)
    requires x >= 0.0 && y >= 0.0
    ensures x * y >= 0.0
  {
  }

  lemma RatioAntitone(reference: real, a: real, b: real)
    requires reference > 0.0 && 0.0 < a <= b
    ensures reference / b <= reference / a
  {
  }

  /** Section and reference equal and weights zero: the base angle of 30 degrees is used. */
  lemma ExampleUnmodulated(analogous: (Color, real) -> Analogous)
    ensures CalculateColorShift(analogous, "#0000ff", BaseShiftAlpha, Some(ShiftParams(10.0, 120.0)),
                                ShiftParams(10.0, 120.0), ShiftParams(0.0, 0.0))
         == analogous("#0000ff", 30.0).left
  {
  }

  /** A section twice as loud as the reference, loudness weight one: 30 degrees become 15. */
  lemma ExampleHalvedShift()
    ensures EffectiveShift(BaseShiftAlpha, ShiftParams(10.0, 120.0), ShiftParams(5.0, 120.0),
                           ShiftParams(1.0, 0.0)) == 15.0
  {
  }

  /** A loudness modifier of -2 turns 30 degrees into -30: the start colour is kept. */
  lemma ExampleNegativeShiftKeepsStart(analogous: (Color, real) -> Analogous, startingHexColor: Color)
    ensures Modifier(-5.0, 5.0, 1.0) == -2.0
    ensures CalculateColorShift(analogous, startingHexColor, BaseShiftAlpha, Some(ShiftParams(5.0, 120.0)),
                                ShiftParams(-5.0, 120.0), ShiftParams(1.0, 0.0))
         == startingHexColor
  {
  }
}
