# Meteo control parameters of HydPy, modelled in Dafny

This project models the control parameters of HydPy's meteo model
(`hydpy/models/meteo/meteo_control.py`): the scalar parameters Latitude and
Longitude, and the monthly Ångström coefficients AngstromConstant ("a"),
AngstromFactor ("b") and AngstromAlternative. Each parameter has a static span
and, for the monthly coefficients, an initial value per month.

The heart of the file is the cross-constrained trim of AngstromConstant and
AngstromFactor. When either one is trimmed without an explicit upper bound,
its upper bound for month `m` is derived from the other ("sibling")
coefficient: `1.0` where the sibling is not set, `1.0 - sibling[m]` where it
is. The parameter's own twelve values are then clamped in place. The sibling
is only read.

Files:

- `parameter_trim.dfy` (module `ParameterTrim`): the generic elementwise trim
  that HydPy's parameter framework applies when a parameter's `trim` calls its
  base class. It is modelled as a plain clamp of each month into
  `[lower[m], upper[m]]`, with the span's bound used where the caller gives
  none. An unset value (NaN in HydPy) is `None`.
- `meteo_control.dfy` (module `MeteoControl`): the spans and initial values,
  the sibling-derived upper bound, the specification function
  `TrimmedCoefficient`, the class `ControlParameters` holding the parameters
  of one model instance (three arrays of twelve values, updated in place, and
  two scalar values), the lemmas, and the two doctests as client methods.

The model works on `real` numbers. The two coefficient trims are proved
against `TrimmedCoefficient`, the AngstromAlternative trim against
`ClampMonths`, and the latitude and longitude trims against `Clamp`. The
lemmas then prove properties of those functions: the joint bound and the
doctest results that the docstrings state, the span [0, 1] that `SPAN`
declares, and idempotence.

Initial values:

- A freshly created parameter set has every value unset. The initial values
  0.25, 0.5 and 0.15 apply only when defaults are requested
  (`ControlParameters(useDefaults := true)`). This is what the doctest at
  `meteo_control.py:36-38` relies on: AngstromFactor is still unset there, so
  the bound is 1.0 and not 1.0 - 0.5.

## Model

| member | source | states |
|---|---|---|
| `ParameterTrim.Clamp` | hydpy/models/meteo/meteo_control.py:49 | the clamped value lies within the bounds; a value already inside them is kept; a value below is raised to the lower bound and a value above is lowered to the upper bound |
| `ParameterTrim.ClampIsNearest` | hydpy/models/meteo/meteo_control.py:49 | of all values within the bounds, the clamped value is the closest to the input |
| `ParameterTrim.ClampMonths` | hydpy/models/meteo/meteo_control.py:49 | the generic monthly trim leaves every month set and within that month's bounds |
| `ParameterTrim.ClampMonthsKeepsValid` | hydpy/models/meteo/meteo_control.py:49 | values already within their bounds are left unchanged |
| `ParameterTrim.ClampMonthsIdempotent` | hydpy/models/meteo/meteo_control.py:49 | trimming twice with the same bounds equals trimming once |
| `ParameterTrim.TrimMonths` | hydpy/models/meteo/meteo_control.py:49 | the in-place trim turns the array into the monthly clamp of its old contents |
| `MeteoControl.SpansAndDefaults` | hydpy/models/meteo/meteo_control.py:12-85 | spans are Latitude [-90, 90], Longitude [-180, 180] and [0, 1] for the three coefficients; initial values are 0.25, 0.5 and 0.15 |
| `MeteoControl.SiblingUpperIsExact` | hydpy/models/meteo/meteo_control.py:44-48 | a value lies at or below the sibling-derived bound exactly when it is jointly admissible: it sums with a set sibling to at most 1, or it is at most 1 where the sibling is unset |
| `MeteoControl.SiblingUpperBounds` | hydpy/models/meteo/meteo_control.py:45-48 | the bound is exactly 1.0 where the sibling is unset and 1.0 - sibling[m] where it is set, one bound per month |
| `MeteoControl.SiblingUpper` | hydpy/models/meteo/meteo_control.py:45-48 | gives one upper bound per month of the sibling; `SiblingUpperIsExact` states what each bound admits |
| `MeteoControl.CoefficientUpper` | hydpy/models/meteo/meteo_control.py:44-48 | a caller's upper bounds are used as given; without them, a value lies at or below month m's bound exactly when it is jointly admissible with the sibling's month m |
| `MeteoControl.TrimRaisesToSpanLower` | hydpy/models/meteo/meteo_control.py:27 | without a caller's lower bound, the lower end 0 of the coefficient's span applies: every trimmed month is at least 0, and a month below 0 becomes exactly 0 |
| `MeteoControl.TrimmedCoefficient` | hydpy/models/meteo/meteo_control.py:44-49 | every trimmed month is set and lies within its lower bound and its (caller's or sibling-derived) upper bound, and a month already within them keeps its value |
| `MeteoControl.DefaultTrimDefined` | hydpy/models/meteo/meteo_control.py:27-49 | with no caller bounds, the lower bound 0 stays at or below every derived upper bound exactly when every set sibling value is at most 1 |
| `MeteoControl.NegativeSiblingRaisesBound` | hydpy/models/meteo/meteo_control.py:44-49 | a sibling of -0.2 gives a bound of 1.2, so 1.1 and 0.5 are both kept as they are |
| `MeteoControl.TrimKeepsJointBound` | hydpy/models/meteo/meteo_control.py:30-49 | without a caller's upper bound, every trimmed month satisfies value + sibling <= 1, or value <= 1 where the sibling is unset |
| `MeteoControl.TrimStaysInSpan` | hydpy/models/meteo/meteo_control.py:27-49 | with no caller bounds and the sibling within [0, 1], every trimmed value lies within the span [0, 1] |
| `MeteoControl.TrimIdempotent` | hydpy/models/meteo/meteo_control.py:44-49 | trimming again with the sibling unchanged leaves the values unchanged |
| `MeteoControl.TrimKeepsValidValues` | hydpy/models/meteo/meteo_control.py:44-49 | values already within their bounds are not changed by a trim |
| `MeteoControl.ExplicitUpperIgnoresSibling` | hydpy/models/meteo/meteo_control.py:44-49 | a caller's upper bound is passed unchanged to the clamp, and the sibling's values make no difference |
| `MeteoControl.TrimBothKeepsSumBound` | hydpy/models/meteo/meteo_control.py:30-77 | trimming AngstromConstant and then AngstromFactor leaves both set with a sum of at most 1 in every month |
| `MeteoControl.TrimOrderMatters` | hydpy/models/meteo/meteo_control.py:44-77 | with both coefficients at 0.8, trimming the constant first gives (0.2, 0.8) and trimming the factor first gives (0.8, 0.2) |
| `MeteoControl.DoctestScenarios` | hydpy/models/meteo/meteo_control.py:34-42 | 1.5 against an unset sibling trims to 1.0 in every month; 0.5 against a sibling of 0.6 trims to 0.4 in every month |
| `MeteoControl.ControlParameters.constructor` | hydpy/models/meteo/meteo_control.py:24-85 | a new parameter set has twelve months per coefficient, all unset, or at the initial values 0.25, 0.5 and 0.15 when defaults are requested; latitude and longitude are unset |
| `MeteoControl.ControlParameters.TrimLatitude` | hydpy/models/meteo/meteo_control.py:12-15 | the latitude is clamped into the caller's bounds or the span [-90, 90] |
| `MeteoControl.ControlParameters.TrimLongitude` | hydpy/models/meteo/meteo_control.py:18-21 | the longitude is clamped into the caller's bounds or the span [-180, 180] |
| `MeteoControl.ControlParameters.TrimAngstromAlternative` | hydpy/models/meteo/meteo_control.py:80-85 | AngstromAlternative is clamped month by month into the caller's bounds or [0, 1], with no sibling |
| `MeteoControl.ControlParameters.TrimAngstromConstant` | hydpy/models/meteo/meteo_control.py:30-49 | AngstromConstant becomes its trimmed values against AngstromFactor; AngstromFactor and AngstromAlternative are unchanged; without a caller's upper bound every month is jointly admissible; with one, that bound is used as given |
| `MeteoControl.ControlParameters.TrimAngstromFactor` | hydpy/models/meteo/meteo_control.py:58-77 | AngstromFactor becomes its trimmed values against AngstromConstant; AngstromConstant and AngstromAlternative are unchanged; without a caller's upper bound every month is jointly admissible; with one, that bound is used as given |
| `MeteoControl.ControlParameters.SetAngstromFactorValue` | hydpy/models/meteo/meteo_control.py:39 | setting the factor's value writes it into every month without trimming and leaves AngstromConstant unchanged |
| `MeteoControl.ControlParameters.SetAngstromConstantValue` | hydpy/models/meteo/meteo_control.py:67 | setting the constant's value writes it into every month without trimming and leaves AngstromFactor unchanged |
| `MeteoControl.ControlParameters.CallAngstromConstant` | hydpy/models/meteo/meteo_control.py:36 | calling AngstromConstant with one value sets all months to it and trims them against AngstromFactor, which is unchanged |
| `MeteoControl.ControlParameters.CallAngstromFactor` | hydpy/models/meteo/meteo_control.py:64 | calling AngstromFactor with one value sets all months to it and trims them against AngstromConstant, which is unchanged |
| `MeteoControl.AngstromConstantDoctest` | hydpy/models/meteo/meteo_control.py:34-42 | on a fresh parameter set, AngstromConstant called with 1.5 holds 1.0; after AngstromFactor is set to 0.6, called with 0.5 it holds 0.4 |
| `MeteoControl.AngstromFactorDoctest` | hydpy/models/meteo/meteo_control.py:62-70 | on a fresh parameter set, AngstromFactor called with 1.5 holds 1.0; after AngstromConstant is set to 0.6, called with 0.5 it holds 0.4 |

## Left out

- The parameter framework (`hydpy.core.parametertools`) is not part of this model: its base classes, the parsing done when a parameter is called, parameter-step and time conversion, the lookup of siblings by name, warnings about trimmed values and string representations. Only its elementwise clamp and its use of the span's bounds as defaults are modelled.
- Floating point: values are `real`, so `1.0 - 0.6` is exactly `0.4`. NaN is modelled only as "unset" (`None`); NaN propagation is not modelled.
- Caller bounds for a monthly parameter are twelve-month sequences; the broadcasting of a scalar bound over the months is not modelled.
- `MeteoControl.ControlParameters.TrimAngstromConstant`: requires the parameter's own values to be set and each month's lower bound to lie at or below its upper bound (for example, a sibling above 1). meteo_control.py does not specify what the framework's clamp does in those cases, so they are preconditions.
- `MeteoControl.ControlParameters.TrimAngstromFactor`: the same two preconditions as for AngstromConstant.
- `MeteoControl.ControlParameters.TrimAngstromAlternative`: the same preconditions (own values set, bounds not crossing).
- `MeteoControl.ControlParameters.TrimLatitude`: requires the latitude to be set and the bounds not to cross; likewise `TrimLongitude`.
- `MeteoControl.ControlParameters.CallAngstromConstant`: the value passed is one value for all months. The sibling's set values must be at most 1, because otherwise the derived bound falls below the lower bound 0 and the bounds cross. Negative sibling values are accepted. Calling with twelve different values is covered by `TrimAngstromConstant` itself. The same holds for `CallAngstromFactor`.
- `MeteoControl.ControlParameters.SetAngstromFactorValue`: models assigning a parameter's value as a plain write of one value into all months. The framework's setter is not part of this model; likewise `SetAngstromConstantValue`.
