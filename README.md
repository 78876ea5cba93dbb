# Round pedestal table calculator, in Dafny

This project models the calculation behind the table-calculator form
(`script.js`). The form takes nine measurements in millimetres: the top's
diameter and thickness, the table height, the base diameter, the main beams'
width and thickness, the rails' width and thickness, and the router cutter
diameter. It also takes two material keys, one for the top and one for the
rails. From these it computes a cut list for the base:

- the groove in the lower lid and lid B;
- the intermediate lid, rounded up to 5 mm;
- the fiberboard wrap band;
- the four main beams;
- the rails and the rail count;
- the two cross-beams.

It also gives the weights of the top, of the base and of the whole table.

The submit handler is one straight run of constant bindings. The model
lifts it out of the DOM handler as pure functions.

- `JsMath` holds the JavaScript number behaviour the handler relies on: a
  parsed number that is finite or not, `Math.floor`, `Math.ceil` (written
  as `-floor(-x)`), `Math.max`/`Math.min`, and `Math.PI` and `Math.sqrt`.
  `Math.PI` and `Math.sqrt` are abstract. A `Math` value carries them, and
  `Math.Valid()` assumes only that π is positive, that √x ≥ 0, and that
  √x·√x = x for x ≥ 0.
- `TableCalculator` holds the constants and the density table, the
  validator and the helpers `roundUp5` and `mm3_to_m3`. It has one function
  per derived quantity, and `Compute`, which builds the result record for
  validated measurements. `Calculate` is the whole handler: it returns
  `InvalidInput` (the alert) or `Computed(cutlist)`.
- `TableProperties` holds the relationships between the outputs, proved
  for every input that passes validation.

Lengths are `real`s. Nothing is clamped, so a result can come out negative,
as it can in the source.

Some details of `script.js` that the model follows exactly:

- The rail count uses a fixed 0.2 mm rail gap (script.js:70). There is no
  rail-gap input and no fiberboard installation gap. With a 400 mm base and
  50 mm rails the count is ⌊π·400/50.2⌋ = 25.
- The groove diameters subtract the fiberboard thickness as well as the
  rail thickness (script.js:51-52).
- The band length is π·(groove outer diameter) + 2·3.2 mm (script.js:64).
- The cross-beams are offset from the groove's inner radius by half the
  diagonal of a beam's section (script.js:75-81).

## Model

| member | source | states |
|---|---|---|
| `TableCalculator.Calculate` | script.js:26-31 | A result is produced exactly when all nine numeric inputs are finite and ≥ 0, each checked separately. If any one fails, the outcome is `InvalidInput` and nothing is computed. Otherwise the result is the calculation applied to the parsed values. |
| `TableCalculator.UsableFields` | script.js:27-28 | The `every(ok)` check over the list of nine inputs holds exactly when each named input passes `ok` on its own. |
| `TableCalculator.Measure` | script.js:26-28 | Inputs that pass the check become measurements that are all non-negative. |
| `TableProperties.BlankOrNegativeRejected` | script.js:26-31 | A blank (NaN) field, or a field set to −1, yields `InvalidInput`. |
| `TableCalculator.DensityOr` | script.js:91 | `densities[key] \|\| fallback` gives the table value for a known key. For any other key it gives the fallback. |
| `TableProperties.DensityLookupTotal` | script.js:40-47 | The table's keys are exactly beech, oak, ash, plywood, pine and fiberboard. An unknown top material gets 650 kg/m³. An unknown rail material gets pine's 500. Both densities are always ≥ 500. |
| `TableCalculator.RoundUp5` | script.js:59 | The result is a whole multiple of 5. It is ≥ the input and less than the input + 5. |
| `TableProperties.IntermediateLidBounds` | script.js:59-60 | The intermediate lid is a multiple of 5. It is ≥ 1.15·base and ≥ 0.55·top, and it exceeds the larger of the two by less than 5 mm. |
| `TableCalculator.MmToM3` | script.js:87 | The volume in m³, scaled back by 10⁹, is the volume in mm³. |
| `TableCalculator.PitchesAround` | script.js:70 | The quotient times the rail pitch (rail width + 0.2 mm) is the base circumference π·baseDiameter. |
| `TableCalculator.RailCount` | script.js:70 | The rail count is always ≥ 1. When ⌊π·baseDiameter/(railWidth + 0.2)⌋ is ≥ 1, the count equals that floor. Otherwise it is 1. |
| `TableProperties.RailsFitAroundBase` | script.js:70 | When one pitch fits around the base, the count is the number of whole pitches in the circumference (n ≤ circumference/pitch < n + 1). Those n rails with their gaps do not overrun the circumference. |
| `TableProperties.GrooveAndLids` | script.js:51-56 | The groove's outer diameter minus its inner diameter is exactly the cutter diameter. The inner diameter is base − 2·rail thickness − 2·3.2. Lid B equals the inner diameter, and the inner radius is half of it. |
| `TableProperties.BandLength` | script.js:64 | The band's length is the circumference π·d of the groove's outer diameter, plus two fiberboard thicknesses (2·3.2). |
| `TableProperties.HeightOffsets` | script.js:63-69 | Rail height is table height − top thickness − 2·15. The band is one groove depth (6) taller than the rails. The main beams are one plywood thickness (15) shorter than the rails. |
| `TableProperties.CrossBeamLengths` | script.js:80-84 | X − Y = beam thickness − beam width. The reported length is min(X, Y), which equals the lid-B diameter minus the beam's diagonal minus the larger of beam width and thickness. |
| `TableProperties.CrossBeamsWithinGroove` | script.js:74-84 | Each cross-beam is at most the groove's inner diameter less one beam width and one beam thickness. The reported one is at most that diameter less twice the larger beam side. |
| `TableProperties.CrossBeamsShrinkWithBeams` | script.js:75-84 | Making the main beams wider or thicker, with all other inputs fixed, never lengthens X, Y or the reported cross-beam. |
| `TableProperties.WeightsAddUp` | script.js:112-118 | The base weight is lids + band + beams. The total is top + base, which equals top + lids + band + beams, with no other term. |
| `TableProperties.TopWeightFormula` | script.js:89-91 | The top's weight is its disc volume π·(top/2)²·thickness in mm³, divided by 10⁹, times the top material's density (650 when the key is unknown). |
| `TableProperties.LidsWeightFormula` | script.js:93-97 | The lids' weight is the volume of two 15 mm plywood discs, one of the groove's outer diameter and one of lid B's, divided by 10⁹, times plywood's 600. |
| `TableProperties.FiberboardWeightFormula` | script.js:99-101 | The band's weight is the volume length·height·3.2 of its sheet, divided by 10⁹, times fiberboard's 800. |
| `TableProperties.DiscVolumeNonNegative` | script.js:90 | A disc, π·(d/2)²·t, with non-negative thickness has non-negative volume. |
| `TableProperties.DiscWeightsNonNegative` | script.js:89-97 | The top's weight and the two plywood lids' weight are never negative. |
| `TableProperties.ExampleTable` | script.js:51-84 | For an example table (800/30/750/400, 60×30 beams, 50×18 rails, 12 mm cutter, oak on pine) with 3.14 < π < 3.15, validation passes and the outputs are: groove 369.6/357.6, inner radius 178.8, intermediate lid 460, band height 696, band length between 1166.944 and 1170.64, main beams 675, rails 690 high, 25 rails, X − Y = −30, and total = top + base. |
| `JsMath.Floor` | script.js:70 | `Math.floor(x)` is the integer f with f ≤ x < f + 1. |
| `JsMath.Ceil` | script.js:59 | `Math.ceil(x)` is the integer c with c − 1 < x ≤ c. |
| `JsMath.HypotAtLeastLegs` | script.js:75 | √(w² + t²) is at least w and at least t, for non-negative w and t. |
| `JsMath.HypotMonotone` | script.js:75 | √(w² + t²) does not decrease when w or t grows. |

## Left out

- Reading the form and `parseFloat` (script.js:9-23). Inputs arrive as
  already-parsed `Number`s. `NonFinite` stands for NaN and ±Infinity.
- The alert text (script.js:29), the `toFixed` formatting (script.js:121-149),
  showing the results block (script.js:152-156) and `console.log`
  (script.js:158-160). These are interface and I/O.
- IEEE-754 rounding and the concrete value of π. Lengths are exact reals.
  π and `Math.sqrt` are the abstract `Math` value described above. Rounding
  up to 5 mm is where this shows most: `Math.ceil` turns a tiny double
  error into a whole 5 mm step. For an 800 mm top and a 300 mm base,
  0.55·800 is 440.00000000000006 in doubles, so the program gives a 445 mm
  intermediate lid where the model gives 440. `IntermediateLidBounds`'s
  bound "less than the larger of the two + 5" holds for the model's exact
  arithmetic, not for the program's doubles.
- Property names that the JavaScript object `densities` inherits from
  `Object.prototype` (for example `"constructor"`). A select element
  cannot produce them. The model treats every key other than the six as
  unknown.
- TableProperties.DiscWeightsNonNegative: states only that the top and lid
  weights are non-negative. Their formulas are stated separately, by
  `TopWeightFormula` and `LidsWeightFormula`.
- TableProperties.WeightsAddUp: states the sums that make up the base and
  total weights. The top, lid and band parts have their own formula lemmas.
  The beams' part (four main beams, two 40×40 cross-beams and the rails,
  script.js:103-114) has no formula lemma over the whole result record,
  because that lemma runs out of the solver's resource limit. It is
  defined by `BeamsWeight` only.
- No claim is made that the groove diameters, the cross-beam lengths, the
  band and beam sizes, or the base weight are non-negative. The code does
  not clamp them, and small bases or large beams make them negative.
- The leftover arc, the suggested rail width, the rail-gap input and the
  fiberboard installation gap belong to other revisions of the calculator.
  `script.js` does not have them.
