# Pointing conversion and axis-limit table, in Dafny

This project models the two core classes of the Pointing_conversion
repository, then proves properties of the model.

- `ENU` (src/pointing_conversion.py) keeps an antenna pointing direction as
  an East-North-Up vector. It has rotations about the three axes and a
  roll-pitch-yaw rotation. It builds the vector from azimuth/elevation, from
  the X/Y angles of an X/Y mount, or from raw components. `update_state`
  recomputes the derived angles from the vector.
- `DataGen` (src/data_generator.py) builds the limit table. For every whole
  azimuth degree 0..358 it searches for the elevation at which the mount's
  X or Y angle comes within 5 % of a rectangular axis limit. Each probe
  re-points one shared `ENU` object and classifies the X/Y it reports.

Files:

- `numerics.dfy` (module `Numerics`): the numeric primitives.
  - The record `Maths` holds sin, cos, arcsin, arccos, arctan2, sqrt,
    radians, degrees and round(v, 2) as uninterpreted function values.
  - The few facts the proofs need are predicates that callers supply:
    `ZeroAngle`, `Pythagoras`, `SquareRoot`, and the optional `Parity` and
    `RoundBound`; `ArcSinInverse` (in `pointing_conversion.dfy`) is assumed
    by the two read-back lemmas.
  - It also defines Python's floored float `%`.
- `vectors.dfy` (module `Vectors`): 3-vectors and 3x3 matrices.
  - The two multiplication conventions, `matrix @ vector` and
    `vector @ matrix`.
  - Dot product, Euclidean norm and `np.clip`.
- `pointing_conversion.dfy` (module `PointingConversion`):
  - the rotation matrices, `unit_vector` and `angle_between`;
  - `Derive`, the state `update_state` computes;
  - the class `ENU`, with one method per source method.
- `data_generator.dfy` (module `DataGenerator`):
  - `test_limits`;
  - the search as a fuelled specification function `Search`;
  - the sweep as `Sweep`;
  - the class `DataGen`, whose methods are proved equal to those functions.

The specification functions `Search`, `Solve` and `Sweep` take the X/Y
conversion as a parameter `xyOf`. It stands for re-pointing the shared ENU
object with `from_azel` and reading its `xy`. The class passes
`Pointing(maths)`, and `DataGen.PointAt` proves that this is what the
re-pointed object reports.

Behaviour of the code worth noting:

- The sweep covers `range(0, 359)`: 359 azimuths, 0 to 358.
- Closeness is `math.isclose` with relative tolerance 0.05, although the
  comment at src/data_generator.py:49 speaks of a tolerance of 0.05 degrees.
- The range tests round X and Y to 2 digits.
- The bracket midpoint is `(el_max + el_min) / 2.05`.
- An inverted X or Y interval is not rejected.
- `arcsin` arguments are not clamped.
- `from_enu` tests the sum of the components for zero, not the vector.
- `R_rpy` with zero roll and zero yaw builds the east matrix for the pitch
  but applies it on the right, so it turns the vector by -pitch where
  `R_east(pitch)` turns it by +pitch.
- `DataGen()` with no argument uses the limits of the legacy 26 m antenna;
  it corresponds to `new DataGen(maths, DefaultLimits, depth)`.

## Model

| member | source | states |
|---|---|---|
| Numerics.FloatMod | src/pointing_conversion.py:61 | Python's `% 360` on floats: the result lies in [0, b), differs from the operand by a whole number of turns, and is the operand itself when that is already in [0, b) |
| Vectors.MatVec | src/pointing_conversion.py:101 | `matrix @ vector`: component i is row i of the matrix dotted with the vector; its laws are `MatMulApplies` and `MatVecAdjoint` |
| Vectors.MatMul | src/pointing_conversion.py:32 | `a @ b` on two matrices, row by row; its law is `MatMulApplies` |
| Vectors.MatMulApplies | src/pointing_conversion.py:32 | `(a @ b) @ v` equals `a @ (b @ v)`, so the chained product at :32 and :42 applies the right-hand rotation first |
| Vectors.MatVecAdjoint | src/pointing_conversion.py:101-114 | the left product `matrix @ vector` and the right product `vector @ matrix` are adjoint: `dot(M v, u) == dot(v, u M)` for all vectors |
| Vectors.Dot | src/pointing_conversion.py:90 | `np.dot` of two 3-vectors; `MatVecAdjoint`, `AngleWithItself` and `AngleOfPerpendicular` state what it gives |
| Vectors.VecMat | src/pointing_conversion.py:114 | `vector @ matrix` is the transposed matrix applied to the vector |
| Vectors.Norm | src/pointing_conversion.py:83 | `np.linalg.norm` as sqrt of the sum of squares, which `update_state` also computes for `rng` at :63; its facts are `NormNonNegative`, `UnitNorm` and `NormZeroIffZero` |
| Vectors.NormNonNegative | src/pointing_conversion.py:83 | with the square-root facts, a length is never negative |
| Vectors.UnitNorm | src/pointing_conversion.py:83 | a vector whose squares sum to 1 has norm 1 |
| Vectors.NormZeroIffZero | src/pointing_conversion.py:83 | `np.linalg.norm` is zero exactly for the zero vector |
| Vectors.Clip | src/pointing_conversion.py:90 | `np.clip(v, -1, 1)` lies in the interval, keeps values inside it and maps values below or above it to the nearer bound |
| PointingConversion.EastMatrix | src/pointing_conversion.py:95-98 | the matrix `R_east(theta)` builds, entry for entry; its facts are `AxisRotationsFixTheirAxes`, `EastMatrixOrthogonal` and `EastRotation` |
| PointingConversion.NorthMatrix | src/pointing_conversion.py:108-111 | the matrix `R_north(theta)` builds; its facts are `AxisRotationsFixTheirAxes`, `NorthMatrixOrthogonal` and `NorthRotation` |
| PointingConversion.UpMatrix | src/pointing_conversion.py:121-124 | the matrix `R_up(theta)` builds; its facts are `AxisRotationsFixTheirAxes`, `UpMatrixOrthogonal` and `UpRotation` |
| PointingConversion.RpyMatrix | src/pointing_conversion.py:134-139 | the matrix `R_rpy(psi, phi, theta)` builds; its facts are `ZeroRotationIsIdentity` and `PitchOnlyIsEastRotation` |
| PointingConversion.AxisRotationsFixTheirAxes | src/pointing_conversion.py:96-127 | the east matrix times the east axis is the east axis; the north axis times the north matrix, and the up axis times the up matrix, are those axes |
| PointingConversion.EastMatrixOrthogonal | src/pointing_conversion.py:96-98 | with sin^2 + cos^2 = 1, the east matrix times its transpose is the identity |
| PointingConversion.NorthMatrixOrthogonal | src/pointing_conversion.py:109-111 | likewise for the north matrix |
| PointingConversion.UpMatrixOrthogonal | src/pointing_conversion.py:122-124 | likewise for the up matrix |
| PointingConversion.PitchOnlyIsEastRotation | src/pointing_conversion.py:134-139 | with sin 0 = 0, cos 0 = 1 and radians(0) = 0, `R_rpy(0, phi, 0)` builds the matrix of `R_east(phi)` |
| PointingConversion.PitchOnlyTurnsBackwards | src/pointing_conversion.py:137-140 | with sine odd, cosine even and the zero-angle facts, `vector @ R_rpy(0, phi, 0)` is `R_east(-phi) @ vector`: the opposite turn of `R_east(phi)` |
| PointingConversion.ZeroRotationIsIdentity | src/pointing_conversion.py:92-142 | with radians(0) = 0, sin 0 = 0 and cos 0 = 1, the matrices of `R_east(0)`, `R_north(0)`, `R_up(0)` and `R_rpy(0, 0, 0)` are all the identity |
| PointingConversion.ZeroRotationFixes | tests/test_pointing_conversion.py:52-74 | rotating any vector by 0 degrees, with the source's multiplication side for each rotation, leaves it unchanged |
| PointingConversion.EastRotation | src/pointing_conversion.py:95-101 | `matrix @ vector` with the east matrix keeps the east component and the squared length |
| PointingConversion.NorthRotation | src/pointing_conversion.py:108-114 | `vector @ matrix` with the north matrix keeps the north component and the squared length |
| PointingConversion.UpRotation | src/pointing_conversion.py:121-127 | `vector @ matrix` with the up matrix keeps the up component and the squared length |
| PointingConversion.RowRotationReversesAngle | src/pointing_conversion.py:105-129 | with sine odd and cosine even, multiplying on the right by the north or up matrix for theta is multiplying on the left by the one for -theta |
| PointingConversion.AzElVector | src/pointing_conversion.py:32 | `R_up(-az) @ R_east(el) @ north` is (-sin(-az) cos el, cos(-az) cos el, sin el), angles in radians |
| PointingConversion.AzElVectorDirection | src/pointing_conversion.py:32 | with parity, that vector is (sin az cos el, cos az cos el, sin el): azimuth from north towards east, elevation up from the horizon |
| PointingConversion.AzElVectorIsUnit | src/pointing_conversion.py:32-33 | the azimuth/elevation vector has length 1, so `unit_vector` returns it unchanged |
| PointingConversion.XYVector | src/pointing_conversion.py:42 | `R_north(x) @ R_east(-y) @ up` is (sin x cos(-y), -sin(-y), cos x cos(-y)) |
| PointingConversion.XYVectorDirection | src/pointing_conversion.py:42 | with parity, that vector is (sin x cos y, sin y, cos x cos y): X tips the zenith towards east and Y towards north |
| PointingConversion.XYVectorIsUnit | src/pointing_conversion.py:42-43 | the X/Y vector has length 1, so `unit_vector` returns it unchanged |
| PointingConversion.UnitVector | src/pointing_conversion.py:80-83 | `vector / norm` is undefined (NaN, here `None`) exactly when the norm is 0; otherwise the norm times the result is the input |
| PointingConversion.UnitVectorDefined | src/pointing_conversion.py:80-83 | the unit vector exists exactly for non-zero vectors |
| PointingConversion.UnitVectorIsUnit | src/pointing_conversion.py:80-83 | the unit vector of a non-zero vector has squared length 1 and norm 1 |
| PointingConversion.UnitVectorOfUnit | src/pointing_conversion.py:80-83 | a vector of norm 1 is its own unit vector |
| PointingConversion.AngleBetween | src/pointing_conversion.py:85-90 | undefined exactly when one of the vectors has norm 0; otherwise arccos of a value the clip keeps in [-1, 1] |
| PointingConversion.AngleWithItself | src/pointing_conversion.py:85-90 | a non-zero vector makes the angle arccos(1) with itself |
| PointingConversion.AngleOfPerpendicular | src/pointing_conversion.py:85-90 | perpendicular non-zero vectors make the angle arccos(0) |
| PointingConversion.Derive | src/pointing_conversion.py:55-68 | east/north/up are the components; az lies in [0, 360) a whole number of turns from the heading z; azel == (az, el) and xy == (x, y) |
| PointingConversion.AzimuthOfHeading | src/pointing_conversion.py:61-66 | az equals z for z in [0, 360) and z + 360 for z in [-360, 0), so [0, 360) covers the whole arctan2 range |
| PointingConversion.RangeIsLength | src/pointing_conversion.py:63 | the range is non-negative and is zero exactly for the zero vector |
| PointingConversion.ElevationRoundTrip | src/pointing_conversion.py:62 | where arcsin undoes sin on [-90, 90], the elevation read back from the azimuth/elevation vector is the one given |
| PointingConversion.YRoundTrip | src/pointing_conversion.py:65 | likewise the Y angle read back from the X/Y vector is the one given |
| PointingConversion.AzElToXY | src/pointing_conversion.py:64-68 | the X and Y an ENU object reports once it points along the azimuth/elevation vector; `AzElToXYIsDerived` and `ENU.FromAzEl` tie it to the object |
| PointingConversion.AzElToXYIsDerived | src/pointing_conversion.py:64-68 | those X and Y are the ones `update_state` derives from the azimuth/elevation vector |
| PointingConversion.ENU.constructor | src/pointing_conversion.py:7-25 | azel only: the azimuth/elevation vector; xy only: the X/Y vector; otherwise (0, 1, 0); in every case the state agrees with the vector |
| PointingConversion.ENU.FromAzEl | src/pointing_conversion.py:27-34 | the new vector depends only on az and el, whatever the earlier vector and the rotations' side effects; the 1e-6 stand-ins are overwritten; the reported xy is `AzElToXY(az, el)` |
| PointingConversion.ENU.FromXY | src/pointing_conversion.py:36-44 | the new vector depends only on x and y, and the state agrees with it |
| PointingConversion.ENU.FromEnu | src/pointing_conversion.py:46-53 | normalised when e + n + u is not 0, and then defined; stored as given when the sum is 0, for example (1, -1, 0) |
| PointingConversion.ENU.UpdateState | src/pointing_conversion.py:55-68 | the vector is unchanged and every derived attribute is recomputed from it |
| PointingConversion.ENU.REast | src/pointing_conversion.py:92-103 | returns the east matrix; without a vector nothing changes; with one, the vector becomes `matrix @ vector` and the state follows |
| PointingConversion.ENU.RNorth | src/pointing_conversion.py:105-116 | returns the north matrix; without a vector nothing changes; with one, the vector becomes `vector @ matrix` and the state follows |
| PointingConversion.ENU.RUp | src/pointing_conversion.py:118-129 | returns the up matrix; without a vector nothing changes; with one, the vector becomes `vector @ matrix` and the state follows |
| PointingConversion.ENU.RRpy | src/pointing_conversion.py:131-142 | needs a vector; it becomes `vector @ matrix` for the roll-pitch-yaw matrix, and the state follows |
| DataGenerator.TestLimits | src/data_generator.py:59-83 | (False, False) whenever round(x, 2) is outside the x limits, before y is looked at; never (False, True); first component true exactly when both rounded values are in range; (True, True) exactly when also x or y is within relative tolerance 0.05 of one of its own axis bounds |
| DataGenerator.IsClose | src/data_generator.py:76-77 | `math.isclose` with relative tolerance 0.05 and no absolute tolerance: every value is close to itself, and only zero is close to zero |
| DataGenerator.IsCloseToPositive | src/data_generator.py:76-77 | closeness to a positive bound b is the band 0.95 b <= v <= b / 0.95 |
| DataGenerator.IsCloseNegated | src/data_generator.py:76-77 | closeness does not depend on sign, so negative bounds have the mirrored band |
| DataGenerator.DefaultLimitsInside | src/data_generator.py:69-83 | with the default limits and round2 within 0.005, a point at least 0.005 inside is (True, True) exactly when abs(x) >= 81.7 or abs(y) >= 72.2, and (True, False) otherwise |
| DataGenerator.DefaultLimitsOutside | src/data_generator.py:69-74 | with the default limits, a point more than 0.005 outside on either axis is (False, False) |
| DataGenerator.Mid | src/data_generator.py:46 | the probe `(el_max + el_min) / 2.05`: for 0 <= lo <= hi it lies in [0, 40/41 hi], and it falls below lo exactly when hi < 1.05 lo |
| DataGenerator.Pointing | src/data_generator.py:47-48 | the conversion the class passes to the search: the X and Y of `AzElToXY` for an azimuth and elevation |
| DataGenerator.Reached | src/data_generator.py:45-57 | the brackets a search visits: its first bracket, then those of the one recursive call its probe makes, none after a (True, True) probe |
| DataGenerator.Search | src/data_generator.py:35-57 | a found elevation is the probe (el_max + el_min) / 2.05 of a non-inverted bracket the search reached, and is classified (True, True); it lies in [0, 40/41 hi] for a non-negative bracket; an inverted bracket gives None |
| DataGenerator.ReachedWithin | src/data_generator.py:45-57 | from a non-negative bracket, every bracket the search reaches has a non-negative floor and a ceiling no higher than the first |
| DataGenerator.SearchBranches | src/data_generator.py:45-57 | with depth left and lo <= hi: a (True, True) probe is the result; (True, False) continues on [lo, mid], a reached bracket (hi - 1.05 lo) / 2.05 wide; (False, False) continues on [mid, hi], one (1.05 hi - lo) / 2.05 wide |
| DataGenerator.SearchFuelMonotone | src/data_generator.py:35-57 | a search that finishes within some recursion depth gives the same result with any larger depth |
| DataGenerator.NeverInsideRunsOutOfFuel | src/data_generator.py:44-57 | when no elevation is inside the limits, every probe raises the floor, the bracket never inverts, and the search ends only at the recursion limit, whatever the depth |
| DataGenerator.Solve | src/data_generator.py:29-31 | the search for one whole azimuth from the bracket (1, 90): a found elevation is classified (True, True) and lies in [0, 3600/41] |
| DataGenerator.Sweep | src/data_generator.py:27-32 | `limit_list` after the sweep over the first n azimuths: at most n entries; `SweepShape` gives its entries |
| DataGenerator.SweepShape | src/data_generator.py:27-32 | entry i of the list is azimuth i with the elevation its (1, 90) search found, so the azimuths ascend from 0; a list shorter than asked for ends where a search hit the recursion limit |
| DataGenerator.SweepComplete | src/data_generator.py:27-32 | the list has an entry for every azimuth exactly when no search hits the recursion limit |
| DataGenerator.SweepStalled | src/data_generator.py:27-32 | once a search has hit the recursion limit, the list grows no further |
| DataGenerator.EmptyRangeSweep | src/data_generator.py:27-32 | limits with an empty X interval leave the list empty whatever the depth |
| DataGenerator.DataGen.constructor | src/data_generator.py:12-21 | stores the limits, builds its ENU object, and leaves the list `find_limits` computes for those limits |
| DataGenerator.DataGen.PointAt | src/data_generator.py:47-48 | re-pointing the ENU object with `from_azel(azimuth, el)` leaves it holding the azimuth/elevation vector with its state consistent, and the reported `xy` is `Pointing(maths)(azimuth, el)` |
| DataGenerator.DataGen.RecursiveFindEl | src/data_generator.py:35-57 | the recursive method returns exactly what `Search` specifies for its bracket and depth |
| DataGenerator.DataGen.FindLimits | src/data_generator.py:23-32 | the list is rebuilt from empty, whatever it held before, as the sweep over azimuths 0..358; `completed` exactly when it has all 359 entries |

## Left out

- src/plotting_gui.py is not part of this model: Tkinter widgets, plotting,
  CSV files and the polygon mode that calls a `find_from_point` the data
  generator does not define.
- Numeric content of sin, cos, arcsin, arccos, arctan2, sqrt, radians,
  degrees and `round(v, 2)`: they are uninterpreted and only the stated
  facts are assumed. So the az/el ↔ x/y values in
  tests/test_pointing_conversion.py:10-30 are not proved. Those are
  floating-point accuracy claims.
- Floating-point arithmetic: `real` is exact, so rounding, overflow and NaN
  propagation are not modelled. The NaN numpy produces when it normalises a
  zero vector is `None` in `UnitVector` and `AngleBetween`.
- `print(xy)` in `test_limits`, the commented-out prints, `__str__` and
  `__repr__`: output only.
- The unused `offset` field and the helper vectors `east_vect` and the
  others, which the model has as constants.
- `unit_vector` and `angle_between` read no object state, so they are
  module functions rather than `ENU` members.
- DataGenerator.Search: the Python recursion limit is the `fuel` parameter,
  and `RecursionError` is the `OutOfFuel` result. The model does not know
  the interpreter's actual limit or the frames already on the stack.
- DataGenerator.Search: the docstring of `recursive_find_el` promises the
  minimum elevation that respects the limits; that is not established. The
  search returns the first (True, True) probe on its path, and the TODO at
  src/data_generator.py:44 disowns the branch direction. For azimuth 0 and
  the default limits (worked by hand, not executed) the probes go
  44.39, 22.14, 11.29, 16.31 and the search returns 16.31, although
  elevations down to 14 are also (True, True).
- DataGenerator.DataGen.constructor: a `RecursionError` in `find_limits`
  propagates out of the source's constructor. The model instead keeps the
  partial list, which `FindLimits` reports as `completed == false`.
- PointingConversion.ENU.RRpy: the source raises when no vector is set; the model requires a vector. Of the roll-pitch-yaw matrix
  only its exact entries, its value at zero angles and its pitch-only case
  are stated.
- PointingConversion.AngleBetween: states that the result is arccos of a
  value in [-1, 1]. The numeric angle is not computed, because arccos is
  uninterpreted.
- `test_limits` is called twice on every probe that is not (True, True): a
  (True, True) probe returns after the first call. The two calls give the
  same result, since the only side effect is the print, and the model
  evaluates both.
