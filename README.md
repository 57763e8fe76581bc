# Line azimuth

A model of `get_azimuth` from the line_azimuth repository. The function takes a line segment in a horizontal plane, with x pointing east and y pointing north, and the heights of its two end points. It returns the line's compass azimuth in degrees (0 to 360).

A line has two bearings, 180 degrees apart. The function reports the one the line leans towards, that is, the direction from the higher end point to the lower one. When the heights are equal, the start counts as the higher point.

The project has two modules:

- `Compass` (`compass.dfy`) is an independent reference. It says what the compass bearing of a direction vector is, without saying how to compute it. A bearing must lie in the direction's compass sector, and its tangent must agree with `dx/dy`. `IsDegreesArctan` states the only facts about `degrees(arctan(t))` that the model relies on: the value lies in (-90, 90), has the sign of `t`, and is zero exactly when `t` is zero.
- `LineAzimuth` (`line_azimuth.dfy`) models `get_azimuth` branch by branch, as `GetAzimuth`, and proves that the azimuth it returns is the bearing of the direction the line leans towards.

How the inputs are modelled:

- `degrees(arctan(.))` is a parameter, `atan: real -> real`. The lemmas require `IsDegreesArctan(atan)`.
- Python's `round(value, ndigits)` is left uninterpreted. `GetAzimuth` returns the expression that the `return` statement evaluates: `Round(value, ndigits)` or `Plain(value)`. This shows which branches pass the caller's `r` and which ones hard-code 0.
- The model follows Python 3. When `y_end == y_start`, the division raises ZeroDivisionError and `angle` becomes `None`. The first comparison, `None > 0`, then raises TypeError. The model returns `RaisesTypeError` in that case.
- The table at lines 97-107 gives an east-west line 90 or 270. The code never reaches it. This model follows the code, and it keeps the table as the corrected definition `GetAzimuthIntended` (see Findings).

## Model

| member | source | states |
|---|---|---|
| `LineAzimuth.GetAzimuth` | get_lineazi.py:35-107 | The call raises TypeError exactly when the end points share their y coordinate. What it returns otherwise is stated by `AzimuthIsDipBearing` and `RoundingByQuadrant`. |
| `LineAzimuth.EstimateAngle` | get_lineazi.py:55-58 | The raw angle is `None` exactly when dy = 0, that is, exactly when the division raises ZeroDivisionError. Otherwise it is `atan(dx/dy)`; its range and sign are stated by `RawAngleFacts`. |
| `LineAzimuth.RawAngleFacts` | get_lineazi.py:54-58 | The raw angle is `None` exactly when dy = 0. Otherwise it lies in (-90, 90), is 0 exactly when dx = 0, and is positive exactly when dx and dy have the same strict sign. |
| `LineAzimuth.AzimuthIsDipBearing` | get_lineazi.py:54-95 | When dy != 0, the unrounded result is the compass bearing of the dip direction. That is the direction start to end when height_start >= height_end, and end to start otherwise. This covers all twelve reachable branches: angle, 180+angle, 360+angle, 0 and 180. |
| `LineAzimuth.RoundingByQuadrant` | get_lineazi.py:61-95 | When dy != 0, the unrounded result lies in [0, 360). It is a bare 0 or 180 exactly when dx = 0. Otherwise it is rounded: to 0 digits when it lies in the first quadrant (0, 90), and to the caller's `r` digits in every other branch. |
| `LineAzimuth.HeightTestFlipsHalfTurn` | get_lineazi.py:61-95 | With the points held fixed, flipping the outcome of `height_start >= height_end` changes the unrounded result by exactly +180 or -180. |
| `LineAzimuth.SwapEndpoints` | get_lineazi.py:56-95 | If the heights differ strictly, swapping start and end (heights included) gives an identical outcome. This holds for the raised error too. |
| `LineAzimuth.SwapLevelEndpoints` | get_lineazi.py:56-95 | If the heights are equal and dy != 0, swapping start and end turns the unrounded result by exactly half a turn. |
| `LineAzimuth.EastWestAzimuth` | get_lineazi.py:98-107 | The unreachable east-west table gives 90 or 270. It gives 90 exactly when `x_end - x_start > 0` agrees with `height_start >= height_end`. `IntendedIsDipBearing` proves it is the dip bearing when dx != 0. |
| `LineAzimuth.GetAzimuthIntended` | get_lineazi.py:97-107 | This is the corrected azimuth: an east-west line gets the 90/270 table. Wherever the code as written returns, the two agree. |
| `LineAzimuth.IntendedIsDipBearing` | get_lineazi.py:54-107 | For every line with nonzero horizontal extent, east-west lines included, the corrected azimuth is the compass bearing of the dip direction. |
| `LineAzimuth.IntendedSwapEndpoints` | get_lineazi.py:56-107 | For the corrected azimuth, swapping strictly unequal end points leaves the value unchanged on every line with nonzero horizontal extent. |
| `LineAzimuth.EastwardLineRaises` | get_lineazi.py:55-61 | A line due east with its start higher raises TypeError as written, while the table at lines 97-100 gives 90. |
| `LineAzimuth.NorthAndDiagonalExamples` | get_lineazi.py:61-95 | A line due north gives a bare 0 when the start is higher and 180 when the end is higher. A line at 45 degrees gives `round(atan(1), 0)` when the start is higher and `round(180 + atan(1), r)` when the end is higher. |
| `Compass.BearingUnique` | get_lineazi.py:50-51 | A nonzero direction has at most one bearing, so the result is fully determined by the dip direction. |
| `Compass.BearingOpposite` | get_lineazi.py:61-95 | The opposite direction's bearing is half a turn away. |
| `Compass.QuotientSign` | get_lineazi.py:56 | `dx/dy` is positive exactly when dx and dy have the same strict sign, and zero exactly when dx = 0. |
| `Compass.OppositeQuotient` | get_lineazi.py:56 | Negating both dx and dy leaves `dx/dy`, and so the raw angle, unchanged. |

## Left out

- numpy's `arctan` and `degrees`, and all floating-point behaviour. The raw angle is an abstract real, and the model assumes only the range and sign facts of `IsDegreesArctan`. One effect: on a line due south, the source's `return angle` can produce IEEE `-0.0`. The model returns the real 0.
- The semantics of Python's `round`, including round-half-even and a `360 + angle` that rounds up to exactly 360.0. `round` stays symbolic, so the [0, 360) bounds are stated before rounding.
- The default `r=0` is not a separate case: `r` is an ordinary parameter.
- Python 2 is not modelled. There, `None < 0` holds, and the call fails instead at `180 + None` (lines 76 and 83) or at `360 + None` (lines 78 and 81). It still raises TypeError, so the outcome is the same.
- numpy scalar inputs are not modelled, and the TypeError finding does not apply to them. Their division by zero warns instead of raising ZeroDivisionError. On an east-west line with dx != 0 it gives plus or minus infinity, so `angle` is plus or minus 90 and the call returns about 90 or 270. On the zero-length line it gives NaN: every comparison at lines 61, 73 and 85 is false, and the call returns `None`.
- Non-numeric, NaN and infinite inputs are not modelled.
- IntendedIsDipBearing and IntendedSwapEndpoints exclude the degenerate line with dx = dy = 0. As written, that line raises TypeError like every other dy = 0 line. The corrected table would give it 270 or 90, and neither value is a bearing.

## Findings

| source | as written | input that shows it | evidently intended | confidence | as-written member | corrected member |
|---|---|---|---|---|---|---|
| get_lineazi.py:55-61 | On an east-west line, `angle = None` reaches the comparison `None > 0` at line 61 before the `angle is None` branch at line 97. The call raises TypeError. | `get_azimuth(0, 0, 10, 0, 100, 50)` | 90.0, as the table at lines 97-107 gives | high; not executed | `LineAzimuth.EastwardLineRaises` | `LineAzimuth.IntendedIsDipBearing` |
