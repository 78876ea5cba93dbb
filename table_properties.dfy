/** Properties of the pedestal table calculation: how its outputs relate to
    each other and to the measurements, for every input that passes
    validation. */
module TableProperties {
  import opened JsMath
  import opened TableCalculator

  /** The intermediate lid covers 115% of the base and 55% of the top, the
      larger of the two rounded up to whole 5 mm, and never by 5 mm or more. */
  lemma IntermediateLidBounds(m: Math, d: Measurements)
    requires d.Valid()
    ensures var c := Compute(m, d);
      && IsMultipleOf5(c.intermediateDiameter)
      && c.intermediateDiameter >= d.baseDiameter * 1.15
      && c.intermediateDiameter >= d.topDiameter * 0.55
      && c.intermediateDiameter < Max(d.baseDiameter * 1.15, d.topDiameter * 0.55) + 5.0
  {
  }

  /** When the rail pitch (width plus the 0.2 mm gap) fits around the base
      at least once, the clamp to one does not apply: the rail count is the
      number of whole pitches in the circumference, and that many rails do
      not overrun it. */
  lemma RailsFitAroundBase(m: Math, baseDiameter: real, railWidth: real)
    requires railWidth >= 0.0
    requires m.pi * baseDiameter >= railWidth + RailGap
    ensures var n := RailCount(m, baseDiameter, railWidth) as real;
      n <= PitchesAround(m, baseDiameter, railWidth) < n + 1.0
    ensures RailCount(m, baseDiameter, railWidth) as real * (railWidth + RailGap) <= m.pi * baseDiameter
  {
  }

  /** The groove is exactly one cutter diameter wide, lid B matches the
      groove's inner edge, and the inner radius is half that diameter. */
  lemma GrooveAndLids(m: Math, d: Measurements)
    requires d.Valid()
    ensures var c := Compute(m, d);
      && c.grooveOuterDiameter - c.grooveInnerDiameter == d.cutterDiameter
      && c.grooveInnerDiameter == d.baseDiameter - 2.0 * d.railThickness - 2.0 * FiberboardThickness
      && c.lidDiameter == c.grooveInnerDiameter
      && 2.0 * c.innerRadius == c.grooveInnerDiameter
  {
  }

  /** The band reaches one groove depth below the rails, and the main beams
      stop one plywood thickness short of them; the rails span the height
      between the top and the two lids. */
  lemma HeightOffsets(m: Math, d: Measurements)
    requires d.Valid()
    ensures var c := Compute(m, d);
      && c.railHeight == d.tableHeight - d.topThickness - 2.0 * PlywoodThickness
      && c.fiberboardHeight == c.railHeight + GrooveDepth
      && c.mainBeamHeight == c.railHeight - PlywoodThickness
  {
  }

  /** The band wraps the groove's outer edge, with two fiberboard
      thicknesses of overlap. */
  lemma BandLength(m: Math, d: Measurements)
    requires d.Valid()
    ensures var c := Compute(m, d);
      c.fiberboardLength == Circumference(m, c.grooveOuterDiameter) + 2.0 * FiberboardThickness
  {
  }

  /** Two cross-beams, one bounded by the beams' widths and one by their
      thicknesses; they differ by thickness minus width, and the single
      reported length is the shorter, which loses the larger of the two. */
  lemma CrossBeamLengths(m: Math, d: Measurements)
    requires d.Valid()
    ensures var c := Compute(m, d);
      var diag := Hypot(m, d.beamWidth, d.beamThickness);
      && c.crossBeamLengthX - c.crossBeamLengthY == d.beamThickness - d.beamWidth
      && c.crossBeamLength == Min(c.crossBeamLengthX, c.crossBeamLengthY)
      && c.crossBeamLength == c.lidDiameter - diag - Max(d.beamWidth, d.beamThickness)
  {
  }

  /** Every cross-beam is at most the groove's inner diameter less one
      beam width and one beam thickness, and the reported one is at most
      that diameter less twice the larger beam side. */
  lemma CrossBeamsWithinGroove(m: Math, d: Measurements)
    requires m.Valid()
    requires d.Valid()
    ensures var c := Compute(m, d);
      && c.crossBeamLengthX <= c.lidDiameter - d.beamWidth - d.beamThickness
      && c.crossBeamLengthY <= c.lidDiameter - d.beamWidth - d.beamThickness
      && c.crossBeamLength <= c.lidDiameter - 2.0 * Max(d.beamWidth, d.beamThickness)
  {
    HypotAtLeastLegs(m, d.beamWidth, d.beamThickness);
  }

  /** Wider or thicker main beams never make a cross-beam longer. */
  lemma CrossBeamsShrinkWithBeams(m: Math, d: Measurements, width: real, thickness: real)
    requires m.Valid()
    requires d.Valid()
    requires width >= d.beamWidth && thickness >= d.beamThickness
    ensures var d' := d.(beamWidth := width, beamThickness := thickness);
      var c, c' := Compute(m, d), Compute(m, d');
      && c'.crossBeamLengthX <= c.crossBeamLengthX
      && c'.crossBeamLengthY <= c.crossBeamLengthY
      && c'.crossBeamLength <= c.crossBeamLength
  {
    HypotMonotone(m, d.beamWidth, d.beamThickness, width, thickness);
  }

  /** Density lookup never fails: known keys give the table value, an unknown
      top material weighs 650 kg/m^3 and an unknown rail material is pine. */
  lemma DensityLookupTotal(key: string)
    ensures Densities.Keys == {"beech", "oak", "ash", "plywood", "pine", "fiberboard"}
    ensures TopDensity(key) == if key in Densities then Densities[key] else 650.0
    ensures RailDensity(key) == if key in Densities then Densities[key] else 500.0
    ensures TopDensity(key) >= 500.0 && RailDensity(key) >= 500.0
  {
  }

  /** The base weight is the two plywood lids, the fiberboard band and the
      solid-wood beams and rails; the total is the top plus the base, with
      no other term. */
  lemma WeightsAddUp(m: Math, d: Measurements)
    requires d.Valid()
    ensures var c := Compute(m, d);
      && c.baseWeight == c.lidsWeight + c.fiberboardWeight + c.beamsWeight
      && c.totalWeight == c.topWeight + c.baseWeight
      && c.totalWeight == c.topWeight + c.lidsWeight + c.fiberboardWeight + c.beamsWeight
  {
  }

  /** The top weighs its disc volume, converted from mm^3 to m^3, times the
      top material's density. */
  lemma TopWeightFormula(m: Math, d: Measurements)
    requires d.Valid()
    ensures Compute(m, d).topWeight
      == DiscVolume(m, d.topDiameter, d.topThickness) / 1000000000.0 * TopDensity(d.topMaterial)
  {
  }

  /** The two lids are plywood discs, one cut to the groove's outer edge and
      one (lid B) to its inner edge, each one plywood thickness deep. */
  lemma LidsWeightFormula(m: Math, d: Measurements)
    requires d.Valid()
    ensures var c := Compute(m, d);
      c.lidsWeight
        == (DiscVolume(m, c.grooveOuterDiameter, PlywoodThickness) + DiscVolume(m, c.lidDiameter, PlywoodThickness))
           / 1000000000.0 * Densities["plywood"]
  {
  }

  /** The band is a fiberboard sheet of the band's length and height. */
  lemma FiberboardWeightFormula(m: Math, d: Measurements)
    requires d.Valid()
    ensures var c := Compute(m, d);
      c.fiberboardWeight
        == BlockVolume(c.fiberboardLength, c.fiberboardHeight, FiberboardThickness) / 1000000000.0
           * Densities["fiberboard"]
  {
  }

  /** A disc of non-negative thickness has non-negative volume. */
  lemma DiscVolumeNonNegative(m: Math, diameter: real, thickness: real)
    requires m.pi > 0.0
    requires thickness >= 0.0
    ensures DiscVolume(m, diameter, thickness) >= 0.0
  {
  }

  /** The top and the two plywood lids are discs, so, unlike the band and
      the beams, their weights are never negative. */
  lemma DiscWeightsNonNegative(m: Math, d: Measurements)
    requires m.pi > 0.0
    requires d.Valid()
    ensures Compute(m, d).topWeight >= 0.0
    ensures Compute(m, d).lidsWeight >= 0.0
  {
    DiscVolumeNonNegative(m, d.topDiameter, d.topThickness);
    DiscVolumeNonNegative(m, GrooveOuterDiameter(d), PlywoodThickness);
    DiscVolumeNonNegative(m, LidDiameter(d), PlywoodThickness);
  }

  /** An example table: 800 mm top 30 mm thick, 750 mm high, 400 mm base,
      60 x 30 mm beams, 50 x 18 mm rails, 12 mm cutter, oak on pine. */
  function ExampleInputs(): Inputs {
    Inputs(Finite(800.0), Finite(30.0), Finite(750.0), Finite(400.0),
           Finite(60.0), Finite(30.0), Finite(50.0), Finite(18.0), Finite(12.0),
           "oak", "pine")
  }

  /** With Math.PI between 3.14 and 3.15 the example passes validation and
      gives 25 rails, 675 mm main beams, a 460 mm intermediate lid and a
      band between 1166.944 and 1170.64 mm long. */
  lemma ExampleTable(m: Math)
    requires m.Valid()
    requires 3.14 < m.pi < 3.15
    ensures Calculate(m, ExampleInputs()).Computed?
    ensures var c := Calculate(m, ExampleInputs()).cutlist;
      && c.grooveInnerDiameter == 357.6
      && c.grooveOuterDiameter == 369.6
      && c.innerRadius == 178.8
      && c.intermediateDiameter == 460.0
      && c.fiberboardHeight == 696.0
      && c.mainBeamHeight == 675.0
      && c.railHeight == 690.0
      && c.railCount == 25
      && 1166.944 < c.fiberboardLength < 1170.64
      && c.crossBeamLengthX - c.crossBeamLengthY == -30.0
      && c.totalWeight == c.topWeight + c.baseWeight
  {
  }

  /** A blank field (NaN) or a negative one stops the calculation. */
  lemma BlankOrNegativeRejected(m: Math)
    ensures Calculate(m, ExampleInputs().(topDiameter := NonFinite)) == InvalidInput
    ensures Calculate(m, ExampleInputs().(cutterDiameter := Finite(-1.0))) == InvalidInput
  {
  }
}
