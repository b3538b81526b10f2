# replaymod_circle in Dafny

A model of `main.py` from replaymod_circle. The script builds a ReplayMod
camera path that circles a fixed centre. It works in three stages.

1. `calculate_circle_points` places `number_positions` points on a circle
   in the X-Z plane. It rounds x and z to integers and keeps the centre's y.
   It then appends the first point again to close the loop.
2. `calculate_camera_orientation` gives each point the yaw, pitch and roll
   that aim the camera at the centre.
   `create_camera_path_dataframe` collects one row per point with the time
   `round(i * time_interval)`, where `time_interval = millisec / number_positions`.
3. `dataframe_to_replaymod_json` wraps the rows in the ReplayMod document.
   The document has one key, the path's name. That key holds a fixed
   timeline segment and a camera segment with one keyframe per row.

Files:

- `wrappers.dfy`: `Option` and `Result`.
- `rounding.dfy` (module `PyRound`): Python's `round` on exact rationals,
  ties to even, with and without a number of digits.
- `timing.dfy` (module `Timing`): the Time column.
- `real_arith.dfy` (module `RealArith`): `x**k` by repeated multiplication,
  and facts about products and squares of reals used by the orientation
  proofs.
- `camera_path.dfy` (module `CameraPath`): the point list, the orientation
  and the path table. The table is built with the orientation calculator
  as a parameter (`Calculator(lib, c)` in the script's case), so its own
  facts hold for any calculator.
- `replay_document.dfy` (module `ReplayDocument`): the document as a JSON
  value, a reader that navigates it by key and index, and the round trip
  from rows to document and back.
- `script.dfy` (module `Script`): the two calls the script makes, and its
  own parameters as a sample instance.

The float maths is a parameter. A `MathLib` value carries pi, cos, sin,
atan2, asin, degrees and sqrt. The lemmas that need facts about these
functions require `Sound(lib)`. `Sound` says four things:

- sqrt of a non-negative number is non-negative and squares back to it;
- sqrt(0) = 0;
- asin(0) = 0;
- degrees(0) = 0.

The model raises the same exceptions as the script:

- `IndexError`: `points[0]` when `number_positions <= 0`;
- `ZeroDivisionError`: `dy / distance` when the point is the centre;
- `ValueError`: `math.asin` outside [-1, 1], which Python reports as a
  `ValueError` with the message "math domain error". With a sound library
  this never happens.

Rows are read through pandas `iterrows`. Each row mixes ints and floats, so
pandas upcasts it to floats. As a result the keyframes carry rotation and
position as JSON floats, while the time goes through `int()` and stays an
integer.

The loop is always closed with one repeated point, so there are
`number_positions + 1` rows and the last is at time `millisec`. The
coordinates x and z are rounded to integers. A point on the centre raises
ZeroDivisionError at `dy / distance`, before `asin` is reached.

## Model

| member | source | states |
|---|---|---|
| PyRound.RoundHalfEvenNearest | main.py:10-11 | `round(x)` is an integer within 1/2 of x, and the even one on a tie |
| PyRound.RoundHalfEvenUnique | main.py:37 | any integer that is nearest to x, even on a tie, is `round(x)` |
| PyRound.RoundOfInt | main.py:37 | an integral value rounds to itself |
| PyRound.RoundMonotone | main.py:37 | rounding preserves the order of two values |
| PyRound.RoundHalfEven | main.py:10-11 | Python's `round(x)`: computes the nearest integer, ties to even; its properties are stated by `RoundHalfEvenNearest` and `RoundHalfEvenUnique` |
| PyRound.RoundDigits | main.py:23-24 | Python's `round(x, ndigits)`: scales by 10 per digit, rounds, and scales back; stated for two digits by `Round2Nearest` |
| PyRound.Round2 | main.py:23-24 | `round(x, 2)`; its properties are stated by `Round2Nearest` |
| PyRound.Round2Nearest | main.py:23-24 | `round(x, 2)` is the hundredth `round(100 * x) / 100`, so it is the nearest hundredth with ties to an even number of hundredths; it lies within 0.005 of x and maps 0 to 0 |
| Timing.RowTime | main.py:32-37 | the Time of row i, `round(i * millisec / n)` on exact values; its properties are stated by `SameQuotient`, `RowTimeAtStart`, `RowTimeAtEnd`, `RowTimeMonotone` and `RowTimeWholeInterval` |
| Timing.SameQuotient | main.py:32-37 | the quotient that is rounded, `(i*millisec)/n`, equals the source's `i * time_interval` with `time_interval = millisec / n` |
| Timing.RowTimeAtStart | main.py:37 | row 0 is at time 0 |
| Timing.RowTimeAtEnd | main.py:37 | the closing row, i = n, is at time `millisec` |
| Timing.RowTimeMonotone | main.py:32-37 | for `millisec >= 0` a later row never has an earlier time |
| Timing.RowTimeWholeInterval | main.py:32-37 | when n divides `millisec`, row i is at exactly `i * (millisec / n)` |
| CameraPath.CirclePoint | main.py:9-12 | point i keeps the centre's y; its x and z are integers within 1/2 of `center + radius*cos/sin(2*pi*i/n)` |
| CameraPath.CircleSpec | main.py:6-15 | the point list fails exactly when `number_positions <= 0`, and then with IndexError |
| CameraPath.CirclePointsClosed | main.py:8-15 | for n >= 1 there are n + 1 points: point k for k < n, then point 0 again, all with the centre's y |
| CameraPath.CirclePoints | main.py:6-15 | the append loop yields the specified point list; on success it has n + 1 points, the last equal to the first |
| CameraPath.CameraOrientation | main.py:17-27 | on success roll is 0 |
| CameraPath.OrientAlong | main.py:18-25 | on success for the point-to-centre vector, roll is 0 |
| CameraPath.Orient | main.py:35-36 | the orientation of a generated point, its integer x and z taken as numbers; on success roll is 0 |
| CameraPath.Aim | main.py:23-25 | succeeds exactly when the asin argument lies in [-1, 1], otherwise ValueError ("math domain error"); roll is 0 |
| RealArith.Square | main.py:22 | `a**2`; that it is the product `a * a`, never negative and positive unless a is 0 is stated by `RealArith.SquareIsProduct` and `RealArith.SquareSign` |
| RealArith.SquaredLength | main.py:22 | `dx**2 + dy**2 + dz**2`; that it is 0 exactly for the zero vector and at least `dy**2` is stated by `RealArith.SquaredLengthSign`, and its use in the distance by `DistanceFacts` |
| CameraPath.DistanceFacts | main.py:22-24 | with a sound sqrt the distance is 0 exactly for the zero vector, and otherwise `dy / distance` lies in [-1, 1] |
| CameraPath.OrientAlongZero | main.py:22-24 | the zero vector gives distance 0 and so ZeroDivisionError |
| CameraPath.OrientAlongNonzero | main.py:18-25 | any other vector gets an orientation: no division by zero and no math domain error |
| CameraPath.OrientAtCentre | main.py:17-24 | a camera on the centre raises ZeroDivisionError |
| CameraPath.OrientAwayFromCentre | main.py:17-27 | a camera anywhere else gets an orientation |
| CameraPath.OrientFailsIffAtCentre | main.py:17-24 | the orientation fails exactly when the point equals the centre, and then with ZeroDivisionError |
| CameraPath.AimLevel | main.py:24 | an asin argument of 0 gives pitch 0 |
| CameraPath.OrientAlongLevel | main.py:19-24 | a nonzero vector with dy = 0 gets pitch 0 |
| CameraPath.PitchZeroOnPlane | main.py:19-25 | a point level with the centre and not on it gets pitch 0 and roll 0 |
| CameraPath.MakeRow | main.py:35-38 | the tuple `(x, y, z, yaw, pitch, roll, time)` appended for one point; its use is stated by `TableRows` and `TableRowsExtend` |
| CameraPath.Calculator | main.py:36 | the call `calculate_camera_orientation(x, y, z, center_x, center_y, center_z)` with the centre fixed; what the table does with it is stated by `TableRows`, and what it returns under `Sound` by `OrientFailsIffAtCentre` and `PitchZeroOnPlane` (through `PathTableShape`) |
| CameraPath.TableRows | main.py:34-38 | the rows exist exactly when every point's orientation succeeds; there is one row per point, in order, and row k holds point k, its orientation and `RowTime(k)` |
| CameraPath.TableRowsFailsAt | main.py:34-36 | the first point whose orientation fails decides the table's error |
| CameraPath.TableRowsExtend | main.py:34-38 | a prefix that has its rows, followed by a point that gets an orientation, gains exactly that point's row at the end |
| CameraPath.PathSpec | main.py:29-41 | `number_positions <= 0` gives IndexError |
| CameraPath.CameraPathTable | main.py:29-41 | the row-appending loop yields the specified table, or the error the first failing point raises |
| CameraPath.PathTableShape | main.py:29-41 | with a sound library the table exists exactly when n >= 1 and no point lands on the centre. It then has n + 1 rows, times 0 first and `millisec` last, pitch 0, roll 0 and the centre's y throughout, each point's x and z in order, and a closing row at the first row's x and z |
| CameraPath.PathTimesNondecreasing | main.py:32-37 | for `millisec >= 0` the Time column is non-decreasing |
| ReplayDocument.TimestampKeyframe | main.py:48-59 | one keyframe of the fixed first segment, `{"time": t, "properties": {"timestamp": s}}`; its fields are stated by `TimestampKeyframeFields` |
| ReplayDocument.TimelineSegment | main.py:46-70 | the fixed first segment; its contents are stated by `TimelineKeyframes` and `TimelineInterpolator` |
| ReplayDocument.CameraSegment | main.py:71-86 | the camera segment around its keyframes and segments; its contents are stated by `CameraInterpolator`, `CameraSegmentsZero` and `DocumentRoundTrip` |
| ReplayDocument.CameraKeyframe | main.py:91-97 | the keyframe for one row; its fields are stated by `KeyframeFields` and `KeyframeRoundTrip` |
| ReplayDocument.Keyframes | main.py:90-98 | one keyframe per row, as many as there are rows; their contents are stated by `KeyframesRoundTrip` and `CameraKeyframeContents` |
| ReplayDocument.Zeros | main.py:73 | `[0] * k` has k entries; that each is 0 is stated by `CameraSegmentsZero` |
| ReplayDocument.ReplayJson | main.py:44-98 | the whole document; its shape is stated by `DocumentShape` and `DocumentSegments`, its camera track by `DocumentRoundTrip` |
| ReplayDocument.ToReplayDocument | main.py:43-100 | the scaffold-then-append loop yields the specified document |
| ReplayDocument.KeyframeFields | main.py:91-97 | a camera keyframe holds the row's time as an int under `time`, and [yaw, pitch, roll] and [x, y, z] as floats under `properties` |
| ReplayDocument.KeyframeRoundTrip | main.py:91-97 | a camera keyframe reads back as the row it was built from |
| ReplayDocument.KeyframesRoundTrip | main.py:90-98 | the keyframe list reads back as the rows, in order |
| ReplayDocument.DocumentShape | main.py:44-88 | the document has the single key `name`, holding a list of two segments |
| ReplayDocument.DocumentSegments | main.py:44-88 | the first segment depends on `millisec` alone; the second holds the rows' keyframes and as many zeros |
| ReplayDocument.CameraField | main.py:71-86 | a path through `[name][1][field]` reaches what the same path reaches from `field` in the camera segment |
| ReplayDocument.DocumentRoundTrip | main.py:90-98 | the camera track at `[name][1]["keyframes"]` reads back as exactly the rows |
| ReplayDocument.CameraSegmentsZero | main.py:73 | the camera segment's `segments` is a list with one entry per row, and each is 0 |
| ReplayDocument.TrackKeyframe | main.py:90-98 | below `[name][1]["keyframes"][k]` lies exactly what lies below the keyframe built from row k |
| ReplayDocument.CameraKeyframeContents | main.py:90-98 | keyframe k has row k's time, `camera:rotation` [yaw, pitch, roll] and `camera:position` [x, y, z] |
| ReplayDocument.TimestampKeyframeFields | main.py:48-59 | a timeline keyframe holds its time under `time` and its replay timestamp under `properties` / `timestamp` |
| ReplayDocument.TimelineKeyframe | main.py:47-60 | the first segment's keyframe 0 is the one at time 0 with timestamp 1000, keyframe 1 the one at `millisec` with 2000 |
| ReplayDocument.TimelineKeyframes | main.py:47-60 | the first segment has timestamp 1000 at time 0 and timestamp 2000 at `millisec` |
| ReplayDocument.TimelineInterpolator | main.py:61-69 | the first segment has `segments` [0] and a linear interpolator over `timestamp` |
| ReplayDocument.CameraInterpolator | main.py:74-85 | the camera segment is interpolated by a catmull-rom spline with alpha 0.5 over `camera:rotation` and `camera:position` |
| Script.DocumentSpec | main.py:107-109 | the document exists exactly when the path table does, and otherwise carries the table's error |
| Script.CircleDocument | main.py:107-109 | the table-then-document calls yield the specified document |
| Script.DocumentTrack | main.py:107-109 | with a sound library the camera track of a built document reads back as n + 1 rows: the circle points in order, closed, level, at times `round(k*millisec/n)`, with pitch 0 and roll 0 |
| Script.ExampleKeyframeTimes | main.py:103-109 | for the script's own parameters (32 positions, 20000 ms), keyframe k is at time 625 * k |

## Left out

- Floating-point arithmetic. Coordinates, angles and times are exact reals. The model does not capture float rounding error in `2*pi*i/n`, in `millisec / number_positions` or in the products. Such errors can move a value that sits exactly on a rounding tie.
- The numeric values of cos, sin, atan2, asin, degrees and sqrt. They are fields of `MathLib`, and only the facts listed in `Sound` are assumed where a lemma needs them. The model therefore does not state that the points lie on the circle or what the yaw is.
- CameraPath.CirclePoint: x and z are bounded to within 1/2 of the unrounded coordinate. The exact value is the rounding of a library-dependent number, so no closer bound is stated.
- CameraPath.CameraOrientation: promises only roll 0 by itself. When it fails and what pitch it gives are stated by the lemmas that assume `Sound`.
- CameraPath.OrientAlong: the same; its failure cases are stated by `CameraPath.OrientAlongZero` and `CameraPath.OrientAlongNonzero`.
- CameraPath.Orient: the same; it is `CameraOrientation` at a generated point.
- CameraPath.PathSpec: its own contract states only the IndexError case. When the table exists, and what its rows are, is stated by `CameraPath.PathTableShape` under `Sound`.
- JSON text: `json.dumps(..., indent=3)` and Python's float repr (main.py:100) are not modelled. The document is the value that is serialised.
- pandas: the DataFrame is a sequence of `Row` records. The float upcast that `iterrows` applies is modelled where it shows in the document.
- The keyframe list: the script appends to the list stored at `[name][1]["keyframes"]` in place. The model collects the keyframes in a local sequence and places it in the tree, which is the same final list.
- ReplayDocument.Lookup: returns the first member with a key. Python dicts cannot hold a key twice, so the model's objects may allow what a dict cannot.
- `pyperclip.copy` and `print` (main.py:111-112): the clipboard and the console are not modelled.
- The script's hard-coded parameters (main.py:103-108) appear only as a sample instance in `Script`.
