# Inset-fed patch antenna calculator, modelled in Dafny

The calculator sizes a rectangular microstrip patch antenna with an inset
feed. It takes a dielectric substrate (relative permittivity `e_r`,
height, copper thickness) and a frequency. From them it computes, in a
fixed order: the patch width, the patch length, the 50 ohm feed-line
width (unless the caller preset one), the inset depth of the feed, and
the clearance beside the inset.

This model covers the logic around the formulas:

- the validation done by the substrate constructor;
- the calculator object, whose five derived fields start unset and are
  filled one step at a time;
- the feed-width override rule;
- the piecewise clearance rule;
- the guard and the branch of the effective-permittivity formula;
- every exception each step can raise for real numbers (floating-point
  overflow aside, see below), and the state left behind when one is
  raised.

Numbers are exact reals. The math library calls (`sqrt`, `exp`, `acos`,
`pow`) are a parameter `MathLib`, so every result holds whatever those
functions compute. Where a proof needs a property of them (for example
a square root is non-negative and squares back, or `exp` is positive),
the lemma requires `Sound(m)`, which states exactly those properties.

Files:

- `basics.dfy`: optional values, the exception kinds, results, the
  constants `C`, `Pi` and the 50 ohm target impedance, `MathLib`, and
  small sign lemmas about real arithmetic.
- `substrate.dfy`: the substrate value and its validating constructor.
- `formulas.dfy`: the formulas. Each one returns either a value or the
  exception the code raises, checked in the order Python evaluates the
  expression.
- `steps.dfy`: the calculator's fields as a value `Design`, each method
  as a step function on it, and `AntennaParams`, the whole calculation.
  The lemmas about the calculation are here too.
- `calculator.dfy`: the class `PatchAntenna`. Its methods update the
  fields in place, and each is proved to produce exactly the state and
  outcome its step function specifies.

In these places the model follows the code as written:

- Lengths are in millimetres and micrometres, as the code uses them, not
  metres.
- Any preset feed width that Python treats as false is recomputed. That
  includes an override of `0`.
- A feed width of 5 or more leaves the clearance as it was. It stays
  unset on a fresh calculator.
- A step that raises leaves the fields of earlier steps set. Nothing is
  rolled back.
- The effective-permittivity guard raises `ValueError`.
- There is no ground-plane or outline-export code, so neither is
  modelled.

## Model

| member | source | states |
|---|---|---|
| `Substrates.NewSubstrate` | patch_antenna_calculator.py:18-28 | construction succeeds iff height, copper thickness and `e_r` are all > 0; the reported error is the first failing check in the order height, copper thickness, `e_r`; on success the three values are stored unchanged and satisfy `Valid` |
| `Substrates.NewSubstrateExamples` | patch_antenna_calculator.py:18-28 | the script's board (4.6, 1.6, 35) is accepted; a zero `e_r`, a height of -1 and a zero copper thickness are each rejected with their own error |
| `Formulas.PatchWidth` | patch_antenna_calculator.py:91 | on success the width times `2 f sqrt((e_r+1)/2)` gives back `c`; it fails only with a math-domain or zero-division error |
| `Formulas.PatchWidthSign` | patch_antenna_calculator.py:91 | for a valid substrate the width formula fails iff `f == 0` (ZeroDivisionError); otherwise the width has the sign of `f` |
| `Formulas.EpsilonEff` | patch_antenna_calculator.py:153-159 | fails, with the guard's error, iff width <= 0 or height <= 0 or `e_r` <= 0; otherwise the narrow-strip correction term is added exactly when width < height (that is, width/height < 1) |
| `Formulas.EpsilonEffBranchesMeet` | patch_antenna_calculator.py:155-158 | at width == height the narrow-strip correction is 0, so both branches give the same value where they meet |
| `Formulas.EpsilonEffOfAir` | patch_antenna_calculator.py:155-158 | with `e_r == 1` the effective permittivity is exactly 1 in either branch, whatever the math library computes |
| `Formulas.EpsilonEffBounds` | patch_antenna_calculator.py:155-158 | for `e_r >= 1` the effective permittivity is at least `(e_r+1)/2`; for a strip at least as wide as the substrate is high it is at most `e_r` |
| `Formulas.PatchLength` | patch_antenna_calculator.py:99-103 | the length formula reports the effective-permittivity error iff that formula fails for the given width; on success width, height and `e_r` are positive |
| `Formulas.PatchLengthDefined` | patch_antenna_calculator.py:99-103 | for `e_r >= 1`, a positive width and a positive frequency the length formula never raises (no negative sqrt, no zero denominator) |
| `Formulas.FeedWidth` | patch_antenna_calculator.py:110-112 | fails with a math-domain error iff `e_r + 1.41 < 0`, and otherwise can only fail by dividing by a zero `exp` |
| `Formulas.FeedWidthDefined` | patch_antenna_calculator.py:110-112 | for a valid substrate the feed-width formula never raises |
| `Formulas.EdgeResistance` | patch_antenna_calculator.py:123 | the edge resistance `za = 90 (e_r^2/(e_r-1)) (l/w)^2`, defined for `e_r != 1` and `w != 0`; under a sound math library it is zero exactly when `e_r == 0` or `l == 0` |
| `Formulas.EdgeResistanceSign` | patch_antenna_calculator.py:123 | for `e_r > 0`, `e_r != 1` and a patch of non-zero size, the edge resistance `za` is negative iff `e_r < 1` and positive iff `e_r > 1` |
| `Formulas.InsetFeedLength` | patch_antenna_calculator.py:123-126 | `e_r == 1` divides by zero before anything else; an unset width or length is a TypeError; on success the acos argument lies in [-1, 1], so it is never clamped |
| `Formulas.InsetFeedLengthFailures` | patch_antenna_calculator.py:123-126 | for a set, non-zero patch: `e_r == 1` gives ZeroDivisionError, `0 < e_r < 1` gives a math-domain error (sqrt of a negative number), and for `e_r > 1` it fails, with a math-domain error, iff `Z/za > 1` |
| `Formulas.Clearance` | patch_antenna_calculator.py:136-143 | the rule gives a value iff feed < 5; for 0 < feed < 5 the value is in (feed/2, feed]; for a positive feed it equals the feed iff feed < 2 |
| `Formulas.ClearanceBrackets` | patch_antenna_calculator.py:136-143 | feed < 2 gives feed; [2,3) gives feed/1.25; [3,4) gives feed/1.5; [4,5) gives feed/1.75; 5 and above gives nothing |
| `Formulas.ClearanceAtBoundaries` | patch_antenna_calculator.py:136-143 | at 2, 3 and 4 the upper bracket applies, and at 5 there is no value (the upper bounds are strict) |
| `Steps.WidthStep` | patch_antenna_calculator.py:86-91 | the step succeeds iff the width formula does, and then changes only `w`, to the formula's value |
| `Steps.LengthStep` | patch_antenna_calculator.py:93-103 | an unset `w` is a TypeError; otherwise it succeeds iff the length formula does for `w`, and then changes only `l`; its error is the formula's error |
| `Basics.Truthy` | patch_antenna_calculator.py:67 | Python truthiness of the optional feed width tested by `if not self.feed_line_w`: it is false exactly for `None` and `0` |
| `Steps.FeedWidthStep` | patch_antenna_calculator.py:67-68 | a truthy preset feed width is kept and nothing changes; an unset or zero one is replaced by the formula's value at 50 ohm, or the formula's error is raised |
| `Steps.InsetStep` | patch_antenna_calculator.py:114-126 | succeeds iff the inset formula does for the stored `w` and `l`, and then changes only `feedLineL` |
| `Steps.ClearanceStep` | patch_antenna_calculator.py:128-143 | an unset feed width is a TypeError; otherwise only the clearance may change: it is set to the rule's value below 5 and is left exactly as it was from 5 on |
| `Steps.AntennaParams` | patch_antenna_calculator.py:57-74 | runs width, length, feed width (unless a truthy one is preset), inset length at 50 ohm and clearance, in that order; the first step that raises ends the run and the fields earlier steps set stay set; a width failure changes nothing, a completed run leaves `w`, `l`, `feedLineW` and `feedLineL` set, and a failed run leaves the inset length and clearance as they were |
| `Steps.AntennaParamsSetsAll` | patch_antenna_calculator.py:57-74 | after a run that completes, `w`, `l`, `feedLineW` and `feedLineL` are all set |
| `Steps.AntennaParamsOrder` | patch_antenna_calculator.py:57-74 | in a completed run, `w` is the width formula's value, `l` is computed from that `w`, and `feedLineL` from that `w` and `l` at 50 ohm |
| `Steps.AntennaParamsWidth` | patch_antenna_calculator.py:57-61 | if the width formula raises, the run stops there and nothing changes; otherwise the run leaves its value in `w`; the run fails the effective-permittivity guard iff the width computes and the guard rejects it |
| `Steps.AntennaParamsFeedOverride` | patch_antenna_calculator.py:63-68 | a truthy preset feed width is unchanged by the run, however the run ends; an unset or zero one becomes the formula's value when the run completes |
| `Steps.AntennaParamsClearance` | patch_antenna_calculator.py:67-74 | after a completed run the clearance is the rule's value for the final feed width below 5, and otherwise the previous clearance; so it is set iff feed width < 5 or it was set before |
| `Steps.AntennaParamsFailure` | patch_antenna_calculator.py:57-74 | a run that raises leaves the inset length and the clearance as they were, and never raises a TypeError |
| `Steps.AntennaParamsOnlyFills` | patch_antenna_calculator.py:57-74 | no run unsets a field: every field set before the run is still set after it |
| `Steps.AntennaParamsIdempotent` | patch_antenna_calculator.py:57-74 | running the calculation again after it completed yields the same state and completes again |
| `Steps.FreshRunByFrequency` | patch_antenna_calculator.py:57-61 | on a fresh calculator with a valid substrate: `f == 0` raises ZeroDivisionError and sets nothing; `f < 0` sets a negative width and then fails the effective-permittivity guard; `f > 0` sets a positive width and never fails that guard |
| `Steps.FreshRunCompletes` | patch_antenna_calculator.py:57-74 | for `e_r > 1` and `f > 0`, width, length and feed width always compute, and a fresh calculation completes iff the length is non-zero and `50/za <= 1` for the computed width and length |
| `Calculator.PatchAntenna.constructor` | patch_antenna_calculator.py:37-48 | stores substrate and frequency as given; `w`, `l`, `feedLineW`, `feedLineL` and `feedLineClearance` all start unset |
| `Calculator.PatchAntenna.CalculatePatchWidth` | patch_antenna_calculator.py:86-91 | the new fields and outcome are exactly those given by `WidthStep` applied to the old fields |
| `Calculator.PatchAntenna.CalculatePatchLength` | patch_antenna_calculator.py:93-103 | the new fields and outcome are exactly those given by `LengthStep` applied to the old fields |
| `Calculator.PatchAntenna.CalculateInsetFeedLength` | patch_antenna_calculator.py:114-126 | the new fields and outcome are exactly those given by `InsetStep` applied to the old fields |
| `Calculator.PatchAntenna.CalculateInsetFeedClearance` | patch_antenna_calculator.py:128-143 | the new fields and outcome are exactly those given by `ClearanceStep` applied to the old fields |
| `Calculator.PatchAntenna.CalculateAntennaParams` | patch_antenna_calculator.py:50-74 | the new fields and outcome are exactly `AntennaParams` of the old fields, so every lemma about `AntennaParams` holds of the object |
| `Calculator.RunWithFeedOverride` | patch_antenna_calculator.py:175-179 | a caller that presets a non-zero feed width and then runs the calculation finds the same width afterwards |

## Left out

- Numeric values of the formulas: `sqrt`, `exp`, `acos` and `pow` are parameters, so no numeric result (such as the width for a given board) is proved.
- Floating point: values are exact reals. Rounding, overflow of `exp` and `pow` (the OverflowError the float `pow` can raise in lines 123 and 156), NaN and infinities are not modelled.
- Python 2 integer division: if `e_r` is given as an integer, `(e_r+1)/2`, `(e_r-1)/2` (in `calculate_epsilon_eff`, lines 156 and 158) and `pow(e_r,2)/(e_r-1)` truncate under Python 2. The model uses true division, as Python 3 does.
- Python 2 comparisons with `None`: Python 2 lets `None < 2` through. The model raises a TypeError, as Python 3 does. This only matters when a single step is called on a calculator whose inputs are still unset.
- Units: `c` is in m/s while the lengths are in mm. The model keeps the code's arithmetic and does not check dimensions.
- Presentation: `__repr__`, `print_antenna_params`, the `print` of `e_eff` inside the length step, and the `main` script are output only.
- The `c` attribute: it is a per-object attribute that nothing reassigns, so it is modelled as the constant `C`.
- Constructor argument types: the constructor requires an already valid `Substrate`, since the code can only build a substrate that passed validation. Objects of other types are not modelled.
