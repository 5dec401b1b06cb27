# Mars dome calculator — a Dafny model

`design_dome.py` estimates the surface area of a hemispherical dome for a Mars
base and the weight of its shell under Martian gravity. `sphere_area(diameter,
material, thickness)` does the following:

1. It rejects a diameter that is not positive (`<= 0`). Only then does it check the thickness the same way. A NaN passes both checks; see "## Left out".
2. It looks up the material's density in a three-entry table. An unknown name falls back to glass (`유리`).
3. It computes the hemisphere area `2·π·r²`.
4. It converts centimetres to metres and g/cm³ to kg/m³.
5. It takes the shell volume to be area × thickness.
6. It applies the Mars gravity ratio 0.378.
7. It stores the arguments, plus the area and weight rounded to three decimals, in five module-level variables.

A rejected call prints an error message and leaves all five variables unchanged.

The model has two modules:

- `Rounding` (`rounding.dfy`) models Python's `round(x, 3)` as `Round3`. It
  rounds to the nearest multiple of 1/1000, and a value exactly half-way goes
  to the even neighbour. The module proves that `Round3` really gives a nearest
  three-decimal value, that it is idempotent and monotone, and that its error
  is at most 0.0005.
- `DesignDome` (`design_dome.dfy`) holds the rest:
  - the constants and the density lookup;
  - the formula chain, as pure functions with lemmas: closed forms, positivity,
    monotonicity in thickness and the fallback for unknown materials;
  - `Compute`, which states one call's outcome as a value;
  - the class `Dome`. Its fields are the five module-level variables. Its method
    `SphereArea` follows the source step by step, and its contract is tied to
    `Compute`.

## Model

| member | source | states |
|---|---|---|
| DesignDome.HemisphereArea | design_dome.py:58-59 | has no contract of its own: the hemisphere area `2·π·(d/2)²`, described by HemisphereAreaClosedForm and HemisphereAreaPositive |
| DesignDome.MarsWeight | design_dome.py:66-81 | has no contract of its own: the unit-conversion chain from area to Mars weight, described by MarsWeightClosedForm, MarsWeightPositive, MarsWeightIncreasing and UnknownMaterialWeighsAsGlass |
| DesignDome.Density | design_dome.py:62 | the density used is always one of the table's densities and is positive |
| DesignDome.DensityTable | design_dome.py:15-19 | glass, aluminium and carbon steel have densities 2.4, 2.7 and 7.85 g/cm³ |
| DesignDome.UnknownMaterialIsGlass | design_dome.py:62 | any name outside the table gets glass's density, 2.4 |
| DesignDome.HemisphereAreaClosedForm | design_dome.py:55-59 | the area `2·π·(d/2)²` equals `π·d²/2`, which is half a sphere's `4·π·r²` |
| DesignDome.HemisphereAreaPositive | design_dome.py:58-59 | the area is never negative, and it is strictly positive for every non-zero diameter |
| DesignDome.MarsWeightClosedForm | design_dome.py:66-81 | the four unit-conversion steps amount to area · thickness(cm) · density(g/cm³) · 3.78 |
| DesignDome.MarsWeightPositive | design_dome.py:66-81 | a positive diameter and thickness give a strictly positive Mars weight |
| DesignDome.MarsWeightIncreasing | design_dome.py:66-81 | for a fixed positive diameter and material, a thicker shell is strictly heavier |
| DesignDome.UnknownMaterialWeighsAsGlass | design_dome.py:62-81 | an unknown material gives exactly the weight glass gives |
| DesignDome.Compute | design_dome.py:40-85 | fails exactly when diameter ≤ 0 or thickness ≤ 0; the diameter error is reported whenever diameter ≤ 0, whatever the thickness; on success the material, diameter and thickness are the arguments verbatim; area and weight have three decimals and lie within 0.0005 of the exact area and weight |
| DesignDome.ComputeNonNegative | design_dome.py:84-85 | the stored area and weight of a successful call are never negative |
| DesignDome.UnknownMaterialComputesAsGlass | design_dome.py:50-62 | with an unknown material the outcome equals glass's, except that the unknown name is stored verbatim |
| DesignDome.ComputeAlreadyRounded | design_dome.py:84-85 | rounding a stored area or weight again leaves it unchanged |
| DesignDome.GlassDomeExample | design_dome.py:58-85 | a 10 m glass dome 1 cm thick (the default material and thickness) stores round(50π) and round(453.6π) |
| DesignDome.AluminiumDomeExample | design_dome.py:58-85 | a 6 m aluminium dome 2 cm thick stores round(18π) and round(367.416π) |
| DesignDome.Dome.constructor | design_dome.py:7-11 | the five variables start as `''`, 0, 0, 0, 0 |
| DesignDome.Dome.SphereArea | design_dome.py:25-85 | the diameter is checked first, then the thickness; on either rejection every variable keeps its old value; on success the variables hold the arguments, round(area) and round(Mars weight); the outcome and new state agree with `Compute` |
| DesignDome.RejectionKeepsEarlierResult | design_dome.py:40-52 | after a successful call, a call with a negative diameter is rejected, and the variables still show the first call's result, so the display test at design_dome.py:122 still passes |
| Rounding.NearestEven | design_dome.py:84-85 | the chosen integer is within 1/2 of its argument, is even on a tie, and is non-negative for non-negative arguments |
| Rounding.NearestEvenIsNearest | design_dome.py:84-85 | no integer is closer to the argument than the chosen one |
| Rounding.Round3 | design_dome.py:84-85 | the result has at most three decimals and lies within 0.0005 of the argument; on an exact tie its last decimal digit is even |
| Rounding.Round3IsNearest | design_dome.py:84-85 | no multiple of 1/1000 is closer to the argument than `Round3` |
| Rounding.Round3OfThreeDecimals | design_dome.py:84-85 | a value that already has three decimals is unchanged |
| Rounding.Round3Idempotent | design_dome.py:84-85 | rounding twice equals rounding once |
| Rounding.Round3Monotone | design_dome.py:84-85 | rounding preserves the (non-strict) order of its arguments |
| Rounding.Round3NonNegative | design_dome.py:84-85 | a non-negative value rounds to a non-negative value |

## Left out

- `main` (design_dome.py:87-132) is not part of this model. It is console glue: the `input()` loop, the `종료` exit word, `float()` parsing with its `ValueError` message, the empty-input defaults and the result `print`. Its display test at line 122 looks at the variables rather than at the outcome of the latest call. After a rejected call it therefore shows the previous result again. `RejectionKeepsEarlierResult` shows the state that leads to this.
- The error messages that `sphere_area` prints (lines 41 and 46) are modelled as the returned `Status.Rejected(InvalidDiameter)` and `Status.Rejected(InvalidThickness)`. The text itself is left out.
- Floating point is not modelled. All arithmetic is on exact reals.
- `Pi` is the decimal 3.141592653589793, the printed value of `math.pi`. The proofs use only the fact that it is positive.
- `Round3` rounds the exact real value half-to-even. Python's `round(x, 3)` rounds the exact binary value of its float argument half-to-even, like `Round3`. The model differs from it in two ways.
  - The float argument already carries the rounding error of the float formula chain. The model does not include that error.
  - Python converts the rounded decimal back to the nearest double. The stored float is therefore usually not a three-decimal value: `round(0.1234, 3)` stores 0.12299999999999999822…. The `HasThreeDecimals` facts about `Compute`'s and `Dome.SphereArea`'s stored area and weight hold only for the decimal that the float prints as, not for the binary value Python holds.
- Two edge inputs of `sphere_area` are not modelled, so the all-or-nothing update of `Dome.SphereArea` holds only for finite arguments whose area and weight stay finite:
  - A NaN diameter or thickness is not rejected. `main`'s `float()` accepts `"nan"`, and NaN is not `<= 0` (design_dome.py:40, 45), so it is stored. A NaN diameter makes both the area and the weight NaN. A NaN thickness makes only the weight NaN, because the area (lines 58-59) depends on the diameter alone.
  - For a finite diameter above about 2.7e154, `radius ** 2` (design_dome.py:59) raises `OverflowError`. By then lines 50-52 have already overwritten `material`, `diameter` and `thickness`, so the variables are left half-updated. `main` catches only `ValueError` (line 128), so the exception ends the program. For a finite diameter between about 1.07e154 and 2.7e154, `radius ** 2` is finite but `2 * math.pi * radius ** 2` overflows to infinity without an error.
  - An infinite diameter or thickness (`float("inf")`) raises nothing. The call completes and stores an infinite area or weight, since `round` returns non-finite values unchanged.
- `Dome.SphereArea` does not model Python's dynamic typing. The arguments are reals and a string; an argument of another type, such as an `int` thickness, behaves as its real value.
