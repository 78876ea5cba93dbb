/** The calculation behind the round pedestal table form: validation of the
    nine numeric measurements, the fixed constants and density table, and
    the straight-line derivation of the cut list and the weights. */
module TableCalculator {
  import opened JsMath

  // ---- Constants (millimetres) ----

  /** Plywood lid thickness. */
  const PlywoodThickness: real := 15.0
  /** Fiberboard wrap-band thickness. */
  const FiberboardThickness: real := 3.2
  /** Depth of the groove routed into the lower lid. */
  const GrooveDepth: real := 6.0
  /** Side of the square cross-beam section. */
  const CrossBeamSize: real := 40.0
  /** Gap between neighbouring rails, fixed in the rail-count formula. */
  const RailGap: real := 0.2

  // ---- Densities (kg/m^3) ----

  const Densities: map<string, real> := map[
    "beech" := 680.0,
    "oak" := 700.0,
    "ash" := 680.0,
    "plywood" := 600.0,
    "pine" := 500.0,
    "fiberboard" := 800.0
  ]

  /** Density used for a table top of an unknown material. */
  const TopFallbackDensity: real := 650.0

  /** `densities[key] || fallback`: the table value when the key is present
      and the value is truthy (non-zero), otherwise the fallback. */
  function DensityOr(key: string, fallback: real): (d: real)
    ensures key in Densities ==> d == Densities[key]
    ensures key !in Densities ==> d == fallback
  {
    if key in Densities && Densities[key] != 0.0 then Densities[key] else fallback
  }

  /** Density of the table top's material. */
  function TopDensity(material: string): real {
    DensityOr(material, TopFallbackDensity)
  }

  /** Density of the beams' and rails' material; pine when unknown. */
  function RailDensity(material: string): real {
    DensityOr(material, Densities["pine"])
  }

  // ---- Inputs and validation ----

  /** The form's fields as parsed numbers, plus the two material keys. */
  datatype Inputs = Inputs(
    topDiameter: Number,
    topThickness: Number,
    tableHeight: Number,
    baseDiameter: Number,
    beamWidth: Number,
    beamThickness: Number,
    railWidth: Number,
    railThickness: Number,
    cutterDiameter: Number,
    topMaterial: string,
    railMaterial: string)

  /** The same fields once validation has passed, as plain lengths in mm. */
  datatype Measurements = Measurements(
    topDiameter: real,
    topThickness: real,
    tableHeight: real,
    baseDiameter: real,
    beamWidth: real,
    beamThickness: real,
    railWidth: real,
    railThickness: real,
    cutterDiameter: real,
    topMaterial: string,
    railMaterial: string)
  {
    /** Every length is non-negative, as validation guarantees. */
    predicate Valid() {
      && topDiameter >= 0.0 && topThickness >= 0.0 && tableHeight >= 0.0
      && baseDiameter >= 0.0 && beamWidth >= 0.0 && beamThickness >= 0.0
      && railWidth >= 0.0 && railThickness >= 0.0 && cutterDiameter >= 0.0
    }
  }

  /** The check applied to each input: `Number.isFinite(n) && n >= 0`. */
  predicate Usable(n: Number) {
    n.Finite? && n.value >= 0.0
  }

  /** The nine numeric inputs, in the order the handler lists them. */
  function NumericFields(inp: Inputs): seq<Number> {
    [inp.topDiameter, inp.topThickness, inp.tableHeight, inp.baseDiameter,
     inp.beamWidth, inp.beamThickness, inp.railWidth, inp.railThickness,
     inp.cutterDiameter]
  }

  /** `[...].every(ok)` over the nine numeric inputs. */
  predicate AllUsable(ns: seq<Number>) {
    forall i | 0 <= i < |ns| :: Usable(ns[i])
  }

  /** The `every` check passes exactly when each of the nine inputs does. */
  lemma UsableFields(inp: Inputs)
    ensures AllUsable(NumericFields(inp)) <==>
      && Usable(inp.topDiameter) && Usable(inp.topThickness)
      && Usable(inp.tableHeight) && Usable(inp.baseDiameter)
      && Usable(inp.beamWidth) && Usable(inp.beamThickness)
      && Usable(inp.railWidth) && Usable(inp.railThickness)
      && Usable(inp.cutterDiameter)
  {
    var ns := NumericFields(inp);
    assert ns[0] == inp.topDiameter && ns[1] == inp.topThickness && ns[2] == inp.tableHeight;
    assert ns[3] == inp.baseDiameter && ns[4] == inp.beamWidth && ns[5] == inp.beamThickness;
    assert ns[6] == inp.railWidth && ns[7] == inp.railThickness && ns[8] == inp.cutterDiameter;
  }

  /** The parsed values of inputs that all passed validation. */
  function Measure(inp: Inputs): (d: Measurements)
    requires AllUsable(NumericFields(inp))
    ensures d.Valid()
  {
    assert Usable(NumericFields(inp)[0]) && Usable(NumericFields(inp)[1])
      && Usable(NumericFields(inp)[2]) && Usable(NumericFields(inp)[3])
      && Usable(NumericFields(inp)[4]) && Usable(NumericFields(inp)[5])
      && Usable(NumericFields(inp)[6]) && Usable(NumericFields(inp)[7])
      && Usable(NumericFields(inp)[8]);
    Measurements(
      inp.topDiameter.value, inp.topThickness.value, inp.tableHeight.value,
      inp.baseDiameter.value, inp.beamWidth.value, inp.beamThickness.value,
      inp.railWidth.value, inp.railThickness.value, inp.cutterDiameter.value,
      inp.topMaterial, inp.railMaterial)
  }

  // ---- Small helpers of the handler ----

  /** r is an integral multiple of 5. */
  ghost predicate IsMultipleOf5(r: real) {
    (r / 5.0).Floor as real * 5.0 == r
  }

  /** `roundUp5`: round up to the next multiple of 5 mm. */
  function RoundUp5(mm: real): (r: real)
    ensures IsMultipleOf5(r)
    ensures mm <= r < mm + 5.0
  {
    var k := Ceil(mm / 5.0);
    assert (k as real * 5.0 / 5.0).Floor == k;
    k as real * 5.0
  }

  /** `mm3_to_m3`: cubic millimetres to cubic metres. */
  function MmToM3(v: real): (r: real)
    ensures r * 1000000000.0 == v
  {
    v / 1000000000.0
  }

  /** Volume of a disc of diameter d and thickness t:
      `Math.PI * Math.pow(d / 2, 2) * t`. */
  function DiscVolume(m: Math, d: real, t: real): real {
    m.pi * ((d / 2.0) * (d / 2.0)) * t
  }

  /** Volume of a rectangular block, `a * b * c`. */
  function BlockVolume(a: real, b: real, c: real): real {
    a * b * c
  }

  /** Circumference of a circle of diameter d, `Math.PI * d`. */
  function Circumference(m: Math, d: real): real {
    m.pi * d
  }

  /** How many rail pitches (width plus the fixed gap) go around the base's
      circumference, as a real number: `Math.PI * baseDiameter / (railWidth + 0.2)`. */
  function PitchesAround(m: Math, baseDiameter: real, railWidth: real): (q: real)
    requires railWidth >= 0.0
    ensures q * (railWidth + RailGap) == m.pi * baseDiameter
  {
    m.pi * baseDiameter / (railWidth + RailGap)
  }

  /** `Math.max(1, Math.floor(...))` of the pitches around the base. */
  function RailCount(m: Math, baseDiameter: real, railWidth: real): (n: int)
    requires railWidth >= 0.0
    ensures n >= 1
    ensures Floor(PitchesAround(m, baseDiameter, railWidth)) >= 1 ==>
              n == Floor(PitchesAround(m, baseDiameter, railWidth))
    ensures Floor(PitchesAround(m, baseDiameter, railWidth)) < 1 ==> n == 1
  {
    MaxInt(1, Floor(PitchesAround(m, baseDiameter, railWidth)))
  }

  // ---- The result record ----

  /** Everything the handler computes: the displayed cut list and weights,
      plus the three partial weights it sums into the base weight. */
  datatype Cutlist = Cutlist(
    grooveOuterDiameter: real,
    grooveInnerDiameter: real,
    innerRadius: real,
    lidDiameter: real,
    intermediateDiameter: real,
    fiberboardHeight: real,
    fiberboardLength: real,
    mainBeamHeight: real,
    railHeight: real,
    railCount: int,
    crossBeamLengthX: real,
    crossBeamLengthY: real,
    crossBeamLength: real,
    topWeight: real,
    lidsWeight: real,
    fiberboardWeight: real,
    beamsWeight: real,
    baseWeight: real,
    totalWeight: real)

  // ---- Geometry of the base, one function per quantity the handler names ----

  /** Outer edge of the groove in the lower lid. */
  function GrooveOuterDiameter(d: Measurements): real {
    d.baseDiameter - 2.0 * (d.railThickness + FiberboardThickness) + d.cutterDiameter
  }

  /** Inner edge of the groove in the lower lid. */
  function GrooveInnerDiameter(d: Measurements): real {
    d.baseDiameter - 2.0 * (d.railThickness + FiberboardThickness)
  }

  function InnerRadius(d: Measurements): real {
    GrooveInnerDiameter(d) / 2.0
  }

  /** Lid B, the inner lid, fills the groove's inner edge. */
  function LidDiameter(d: Measurements): real {
    GrooveInnerDiameter(d)
  }

  /** The intermediate lid: the larger of 115% of the base and 55% of the
      top, rounded up to 5 mm. */
  function IntermediateDiameter(d: Measurements): real {
    RoundUp5(Max(d.baseDiameter * 1.15, d.topDiameter * 0.55))
  }

  /** Height of the fiberboard wrap band. */
  function FiberboardHeight(d: Measurements): real {
    d.tableHeight - d.topThickness - 2.0 * PlywoodThickness + GrooveDepth
  }

  /** Length of the fiberboard wrap band. */
  function FiberboardLength(m: Math, d: Measurements): real {
    Circumference(m, GrooveOuterDiameter(d)) + 2.0 * FiberboardThickness
  }

  /** Height of each of the four main beams. */
  function MainBeamHeight(d: Measurements): real {
    d.tableHeight - d.topThickness - 3.0 * PlywoodThickness
  }

  function RailHeight(d: Measurements): real {
    d.tableHeight - d.topThickness - 2.0 * PlywoodThickness
  }

  /** Half the diagonal of a main beam's section: a beam stands corner-on in
      the groove, so its centre sits this far inside the groove's edge. */
  function HalfDiag(m: Math, d: Measurements): real {
    Hypot(m, d.beamWidth, d.beamThickness) / 2.0
  }

  /** The cross-beam bounded by the beams' widths. */
  function CrossBeamLengthX(m: Math, d: Measurements): real {
    2.0 * (InnerRadius(d) - HalfDiag(m, d)) - d.beamWidth
  }

  /** The cross-beam bounded by the beams' thicknesses. */
  function CrossBeamLengthY(m: Math, d: Measurements): real {
    2.0 * (InnerRadius(d) - HalfDiag(m, d)) - d.beamThickness
  }

  // ---- Volumes (mm^3) and weights (kg) ----

  function TopWeight(m: Math, d: Measurements): real {
    MmToM3(DiscVolume(m, d.topDiameter, d.topThickness)) * TopDensity(d.topMaterial)
  }

  /** The lower lid (cut to the groove's outer edge) and lid B, in plywood. */
  function LidsWeight(m: Math, d: Measurements): real {
    var lidsVolume := DiscVolume(m, GrooveOuterDiameter(d), PlywoodThickness)
                      + DiscVolume(m, LidDiameter(d), PlywoodThickness);
    MmToM3(lidsVolume) * Densities["plywood"]
  }

  function FiberboardWeight(m: Math, d: Measurements): real {
    var fiberboardVolume := BlockVolume(FiberboardLength(m, d), FiberboardHeight(d), FiberboardThickness);
    MmToM3(fiberboardVolume) * Densities["fiberboard"]
  }

  /** Four main beams, the two cross-beams and the rails, all in the rail
      material. */
  function BeamsWeight(m: Math, d: Measurements): real
    requires d.Valid()
  {
    var mainBeamsVolume := BlockVolume(d.beamWidth, d.beamThickness, MainBeamHeight(d)) * 4.0;
    var crossBeamsVolume := (CrossBeamSize * CrossBeamSize) * (CrossBeamLengthX(m, d) + CrossBeamLengthY(m, d));
    var railsVolume := BlockVolume(d.railWidth, d.railThickness, RailHeight(d)) * RailCount(m, d.baseDiameter, d.railWidth) as real;
    var beamsVolumeAll := mainBeamsVolume + crossBeamsVolume + railsVolume;
    MmToM3(beamsVolumeAll) * RailDensity(d.railMaterial)
  }

  /** The calculation block, for inputs that passed validation. */
  function Compute(m: Math, d: Measurements): Cutlist
    requires d.Valid()
  {
    var x, y := CrossBeamLengthX(m, d), CrossBeamLengthY(m, d);
    var topWeight := TopWeight(m, d);
    var lidsWeight, fiberboardWeight, beamsWeight := LidsWeight(m, d), FiberboardWeight(m, d), BeamsWeight(m, d);
    var baseWeight := lidsWeight + fiberboardWeight + beamsWeight;
    Cutlist(
      GrooveOuterDiameter(d), GrooveInnerDiameter(d), InnerRadius(d), LidDiameter(d),
      IntermediateDiameter(d), FiberboardHeight(d), FiberboardLength(m, d),
      MainBeamHeight(d), RailHeight(d), RailCount(m, d.baseDiameter, d.railWidth),
      x, y, Min(x, y),
      topWeight, lidsWeight, fiberboardWeight, beamsWeight, baseWeight, topWeight + baseWeight)
  }

  /** What a submission yields: the computed record, or the single
      validation failure (the alert) with no result at all. */
  datatype Outcome = Computed(cutlist: Cutlist) | InvalidInput

  /** The submit handler from validation to the last weight. */
  function Calculate(m: Math, inp: Inputs): (r: Outcome)
    ensures r.Computed? <==>
      && Usable(inp.topDiameter) && Usable(inp.topThickness)
      && Usable(inp.tableHeight) && Usable(inp.baseDiameter)
      && Usable(inp.beamWidth) && Usable(inp.beamThickness)
      && Usable(inp.railWidth) && Usable(inp.railThickness)
      && Usable(inp.cutterDiameter)
    ensures r.Computed? ==> r.cutlist == Compute(m, Measure(inp))
  {
    UsableFields(inp);
    if AllUsable(NumericFields(inp)) then Computed(Compute(m, Measure(inp))) else InvalidInput
  }
}
