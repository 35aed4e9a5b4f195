# PhoneMap in Dafny

PhoneMap is an Android lap-racing app. It shows a raster map of a race track with
the player's position and a "ghost": a recorded lap replayed in real time. This
project models the app's logic and proves properties of it.

- `kotlin.dfy`, modules `Kotlin` and `Division`: the library behaviour the app relies on.
  - `String.split(",")` keeps trailing empty fields.
  - `String.trim()` uses Kotlin's whitespace set.
  - `Double.toLong()` truncates and saturates.
  - `/` and `%` on `Int`/`Long` truncate toward zero.
- `ghost.dfy`, module `Ghost` (GhostManager.kt): the ghost trajectory store.
  - The `init` block reads CSV lines of `seconds,lat,lon` into points.
  - It sorts them by time and moves a positive start time to zero.
  - `getPositionAtTime` clamps to the first and last samples and interpolates linearly between neighbours.
- `track.dfy`, module `Track` (TrackView.kt): the map view.
  - Its state: bounds, player, ghost, calibration offsets and zoom.
  - Its setters, and the projection `latLonToPixels` from calibrated latitude/longitude to image pixels.
  - The ordered canvas calls of `onDraw`, recorded as data.
- `activity.dfy`, module `Activity` (MainActivity.kt):
  - `calculateInSampleSize` and the lap-timer arithmetic of the game loop.
  - The start button and the calibration nudge buttons.
  - One tick of the game loop, which moves the player (simulation mode) or the ghost (real mode) to the recorded position.

Modelling choices:
- Doubles and floats are modelled as `real`, so the interpolation and projection formulas hold exactly.
- Longs and Ints are modelled as `int`, with their ranges checked where they matter.
- `String.toDouble()` is an abstract parameter `parse: string -> Option<real>`; `None` stands for a `NumberFormatException`.
- The current time and `Location.bearingTo` are parameters of the game-loop tick.
- The CSV resource is given to the `GhostManager` constructor as its sequence of lines.
- The decoded and resized bitmap is given to the activity constructor as a size.

A few behaviours of the code are easy to misread:
- Seconds become milliseconds through `toLong`, which truncates toward zero rather than rounding (GhostManager.kt:32; `Ghost.MillisAreTruncated`).
- Under the comment "Normalize Start Time to 0", the shift happens only when `startTime > 0` (GhostManager.kt:40-46).
  - An earliest time at or below zero is left alone.
  - So after construction the first time is at most zero. It is zero exactly when the earliest recorded time was not negative; a negative earliest time stays as it was (`Ghost.NormalizeStart`, `Ghost.LoadedPointsFacts`).
- The division-by-zero guard of `getPositionAtTime` (GhostManager.kt:79-80) is never taken.
  - `indexOfFirst` (GhostManager.kt:62) picks the first sample whose time is not before the query.
  - So the previous sample is always strictly earlier than the query (`Ghost.PositionInside`).
  - When several samples share a time, a query at that time returns the first of them verbatim (`Ghost.PositionAtSample`). Interpolation towards a later one starts only after that time.
- For the same reason, a query equal to the last time returns the last sample only when no earlier sample shares that time (`Ghost.PositionAtSample`). A query strictly after the last time always returns the last sample (`Ghost.PositionAfterEnd`).

## Model

| member | source | states |
|---|---|---|
| Kotlin.Quot | app/src/main/java/com/example/mapproject/MainActivity.kt:44-46 | the truncated quotient and `Rem` recompose the dividend |
| Kotlin.Rem | app/src/main/java/com/example/mapproject/MainActivity.kt:44-46 | the remainder is smaller than the divisor and never of the opposite sign to the dividend |
| Kotlin.QuotAtLeastOne | app/src/main/java/com/example/mapproject/MainActivity.kt:109 | a truncated quotient of at least one means the dividend is at least the divisor |
| Kotlin.DoubleToLong | app/src/main/java/com/example/mapproject/GhostManager.kt:32 | `toLong` gives a Long: it saturates outside the range and truncates toward zero inside it |
| Kotlin.Split | app/src/main/java/com/example/mapproject/GhostManager.kt:27 | splitting always yields at least one part |
| Kotlin.SplitJoin | app/src/main/java/com/example/mapproject/GhostManager.kt:27 | re-joining the parts with the separator gives back the line |
| Kotlin.JoinSplit | app/src/main/java/com/example/mapproject/GhostManager.kt:27 | splitting separator-free parts joined by the separator gives back exactly those parts |
| Kotlin.SplitPartsAreSeparatorFree | app/src/main/java/com/example/mapproject/GhostManager.kt:27 | no part contains the separator |
| Kotlin.SplitCount | app/src/main/java/com/example/mapproject/GhostManager.kt:27-28 | there is one more part than separators, so trailing empty fields count towards `parts.size` |
| Kotlin.TrimStart | app/src/main/java/com/example/mapproject/GhostManager.kt:31 | exactly the leading whitespace is removed: the result is a suffix, everything dropped is whitespace, and it does not start with whitespace |
| Kotlin.TrimEnd | app/src/main/java/com/example/mapproject/GhostManager.kt:31 | exactly the trailing whitespace is removed |
| Kotlin.Trim | app/src/main/java/com/example/mapproject/GhostManager.kt:31-34 | `trim()` is `TrimEnd` after `TrimStart`: the result is no longer than the input and neither starts nor ends with whitespace |
| Kotlin.TrimIdempotent | app/src/main/java/com/example/mapproject/GhostManager.kt:31-34 | trimming a trimmed field changes nothing |
| Ghost.ParseLine | app/src/main/java/com/example/mapproject/GhostManager.kt:27-36 | a line yields a point exactly when it has at least three comma-separated fields whose first three, trimmed, parse; the time is a Long |
| Ghost.ParseLineOfFields | app/src/main/java/com/example/mapproject/GhostManager.kt:27-35 | a line built from comma-free fields yields a point iff its first three trimmed fields parse; the point is (truncated seconds times 1000, lat, lon), and further fields are ignored |
| Ghost.MillisAreTruncated | app/src/main/java/com/example/mapproject/GhostManager.kt:32 | 1.5 ms is stored as 1 and -1.5 ms as -1 (truncation toward zero, not rounding) |
| Ghost.ForEachLineSnoc | app/src/main/java/com/example/mapproject/GhostManager.kt:25-38 | reading one more line appends what that line yields |
| Ghost.ForEachLineAppend | app/src/main/java/com/example/mapproject/GhostManager.kt:25-38 | lines are read independently: a concatenation of inputs gives the concatenation of points |
| Ghost.ForEachLineSkip | app/src/main/java/com/example/mapproject/GhostManager.kt:25-38 | a line that yields nothing does not affect the points of the lines around it |
| Ghost.ForEachLineAll | app/src/main/java/com/example/mapproject/GhostManager.kt:25-38 | whatever holds of every point a single line can yield holds of every collected point |
| Ghost.ParseLinesPrefix | app/src/main/java/com/example/mapproject/GhostManager.kt:25-38 | the points of the first `i + 1` lines are those of the first `i` followed by line `i`'s point, if any |
| Ghost.MalformedLineIsSkipped | app/src/main/java/com/example/mapproject/GhostManager.kt:27-37 | a malformed line is dropped without affecting the other lines |
| Ghost.ParseLinesCount | app/src/main/java/com/example/mapproject/GhostManager.kt:25-38 | one point is collected per well-formed line |
| Ghost.ParseLinesInLongRange | app/src/main/java/com/example/mapproject/GhostManager.kt:32-35 | every collected time is within the Long range |
| Ghost.ReadLines | app/src/main/java/com/example/mapproject/GhostManager.kt:25-38 | the `forEachLine` loop collects exactly the points of the well-formed lines, in line order |
| Ghost.InsertByTime | app/src/main/java/com/example/mapproject/GhostManager.kt:42 | inserting into a sorted list keeps it sorted and adds exactly that point |
| Ghost.SortByTime | app/src/main/java/com/example/mapproject/GhostManager.kt:42 | `sortBy { it.timeMs }` gives a time-ordered permutation of its input |
| Ghost.InsertByTimeAtTime | app/src/main/java/com/example/mapproject/GhostManager.kt:42 | an inserted point goes in front of the points with the same time |
| Ghost.SortByTimeIsStable | app/src/main/java/com/example/mapproject/GhostManager.kt:42 | the sort is stable: points sharing a time keep their line order |
| Ghost.NormalizeStart | app/src/main/java/com/example/mapproject/GhostManager.kt:43-46 | a positive first time becomes 0; otherwise nothing changes; positions and all pairwise time differences are kept |
| Ghost.NormalizeStartOfSorted | app/src/main/java/com/example/mapproject/GhostManager.kt:41-46 | on a sorted list normalisation keeps the order and the Long range, leaves the first time at most 0, and all times are non-negative after a shift |
| Ghost.ShiftStart | app/src/main/java/com/example/mapproject/GhostManager.kt:45 | the `for` loop subtracts the start time from every point and touches nothing else |
| Ghost.LoadedPointsFacts | app/src/main/java/com/example/mapproject/GhostManager.kt:25-46 | after construction: one point per well-formed line, sorted by time, times in the Long range, first time at most 0, and exactly 0 when the earliest recorded time was positive |
| Ghost.GhostManager.constructor | app/src/main/java/com/example/mapproject/GhostManager.kt:18-51 | the `init` block leaves the parsed, sorted and normalised points and establishes the store's invariant |
| Ghost.GhostManager.GetAllPoints | app/src/main/java/com/example/mapproject/GhostManager.kt:14-16 | returns the stored points themselves, which the store's invariant keeps sorted by time and starting at or before 0 |
| Ghost.IndexOfFirst | app/src/main/java/com/example/mapproject/GhostManager.kt:62 | `indexOfFirst` returns the first index whose time is not before the query, or -1 exactly when there is none |
| Ghost.Fraction | app/src/main/java/com/example/mapproject/GhostManager.kt:76-80 | for `prev < t <= next` the fraction lies in (0, 1], and it is 1 exactly at `next`'s time |
| Ghost.FractionHalfway | app/src/main/java/com/example/mapproject/GhostManager.kt:76-80 | halfway in time gives fraction 0.5 |
| Ghost.LerpBetween | app/src/main/java/com/example/mapproject/GhostManager.kt:83-84 | linear interpolation with a fraction in [0, 1] stays between the endpoints |
| Ghost.Interpolate | app/src/main/java/com/example/mapproject/GhostManager.kt:80-87 | the result carries the query time, and at `next`'s time it is `next` |
| Ghost.InterpolateStaysBetween | app/src/main/java/com/example/mapproject/GhostManager.kt:80-87 | strictly after `prev` and up to `next`, lat and lon lie between the neighbours' |
| Ghost.InterpolateMidpoint | app/src/main/java/com/example/mapproject/GhostManager.kt:80-87 | halfway in time is halfway in space |
| Ghost.GhostManager.GetPositionAtTime | app/src/main/java/com/example/mapproject/GhostManager.kt:57-88 | null exactly when there are no points; reading only, it never changes the points |
| Ghost.PositionBeforeStart | app/src/main/java/com/example/mapproject/GhostManager.kt:62-65 | at or before the first time, the first point verbatim |
| Ghost.PositionAfterEnd | app/src/main/java/com/example/mapproject/GhostManager.kt:62-68 | after the last time of a sorted trajectory, the last point verbatim |
| Ghost.PositionInside | app/src/main/java/com/example/mapproject/GhostManager.kt:62-87 | inside the range, the neighbours strictly enclose the query from below, the zero-gap guard is not taken, the fraction is in (0, 1], and the answer interpolates between them |
| Ghost.PositionOnSegment | app/src/main/java/com/example/mapproject/GhostManager.kt:62-87 | on a sorted trajectory, a time in `(t_i, t_i+1]` interpolates on segment `i` |
| Ghost.PositionAtSample | app/src/main/java/com/example/mapproject/GhostManager.kt:62-87 | at a sample's time, when strictly later than its predecessor's, that sample's position is returned |
| Ghost.ThreeSampleExample | app/src/main/java/com/example/mapproject/GhostManager.kt:57-87 | samples at 0, 1000 and 2000 ms: 500 ms gives the midpoint, -10 ms the first and 5000 ms the last |
| Track.TrackView.constructor | app/src/main/java/com/example/mapproject/TrackView.kt:13-36 | a fresh view has no image, zero coordinates, an inactive ghost, calibration (-0.000045, -0.000035) and zoom 6 |
| Track.TrackView.SetupTrack | app/src/main/java/com/example/mapproject/TrackView.kt:43-50 | the image and the four corner values are stored verbatim; nothing else changes |
| Track.TrackView.UpdatePlayerPosition | app/src/main/java/com/example/mapproject/TrackView.kt:52-57 | exactly the player's lat, lon and heading are set; ghost, bounds and calibration are unchanged |
| Track.TrackView.UpdateGhostPosition | app/src/main/java/com/example/mapproject/TrackView.kt:59-64 | the ghost becomes active at the given position; no operation sets it inactive again |
| Track.TrackView.LatLonToPixels | app/src/main/java/com/example/mapproject/TrackView.kt:117-138 | (0, 0) without an image; otherwise the calibrated position's progress across each span, scaled by the image size |
| Track.TrackView.OnDraw | app/src/main/java/com/example/mapproject/TrackView.kt:66-115 | nothing without an image; otherwise save, centre, rotate by minus the heading, zoom, move the world under the player, draw the map, the ghost marker (radius 20) only while active, restore, and the player marker (radius 30) at the view centre |
| Track.CornersProjectToImageCorners | app/src/main/java/com/example/mapproject/TrackView.kt:121-135 | the calibrated top-left corner lands on (0, 0) and the bottom-right on (width, height) |
| Track.CentreProjectsToImageCentre | app/src/main/java/com/example/mapproject/TrackView.kt:121-135 | the calibrated centre of the bounds lands on the image centre |
| Track.LongitudeShiftMovesOnlyX | app/src/main/java/com/example/mapproject/TrackView.kt:127-135 | moving lon by d moves x by `d * width / lonSpan` and leaves y alone |
| Track.LatitudeShiftMovesOnlyY | app/src/main/java/com/example/mapproject/TrackView.kt:127-135 | moving lat by d moves y by `-d * height / latSpan` and leaves x alone |
| Track.InsideImageIffInsideBounds | app/src/main/java/com/example/mapproject/TrackView.kt:131-137 | no clamping: on a north-up image a point projects inside [0, w]×[0, h] exactly when its calibrated position lies within the bounds |
| Track.ProjectionIsInjective | app/src/main/java/com/example/mapproject/TrackView.kt:131-137 | distinct positions project to distinct pixels |
| Track.CalibrationMovesThePosition | app/src/main/java/com/example/mapproject/TrackView.kt:121-122 | the offsets are added to the position before projection, so changing them is the same as moving the position |
| Activity.NextPowerOfTwo | app/src/main/java/com/example/mapproject/MainActivity.kt:109-111 | no power of two lies strictly between `s` and `2s` |
| Activity.CalculateInSampleSize | app/src/main/java/com/example/mapproject/MainActivity.kt:103-114 | a power of two in the Int range; 1 when the image fits; on exit the halved dimensions no longer both fit; every smaller power of two still fit |
| Activity.SampleSizeIsTight | app/src/main/java/com/example/mapproject/MainActivity.kt:106-112 | when the result exceeds 1, both halved quotients at half the result still meet the requirements |
| Activity.LapTimeOf | app/src/main/java/com/example/mapproject/MainActivity.kt:41-46 | for elapsed time ≥ 0, minutes and seconds lie in [0, 59] and hundredths in [0, 99]; for negative time they are ≤ 0 |
| Activity.LapTimeRecomposes | app/src/main/java/com/example/mapproject/MainActivity.kt:44-46 | minutes, seconds and hundredths recompose the elapsed time within the hour, less its last millisecond digit |
| Activity.LapTimeExample | app/src/main/java/com/example/mapproject/MainActivity.kt:44-47 | 62345 ms reads 01:02.34 |
| Activity.Nudged | app/src/main/java/com/example/mapproject/MainActivity.kt:181-204 | Up/Down change only the lat offset and Left/Right only the lon offset, each by 0.000005 in the button's direction |
| Activity.NudgeUndone | app/src/main/java/com/example/mapproject/MainActivity.kt:188-204 | every nudge is undone by the opposite one |
| Activity.NudgesCommute | app/src/main/java/com/example/mapproject/MainActivity.kt:188-204 | the order of button presses does not matter |
| Activity.MainActivity.constructor | app/src/main/java/com/example/mapproject/MainActivity.kt:116-148 | `onCreate` loads the recording, installs the image with the circuit's four corner values, and leaves the race not started |
| Activity.MainActivity.OnStartClick | app/src/main/java/com/example/mapproject/MainActivity.kt:163-170 | the race is running afterwards; a click during a race does not reset its start time |
| Activity.MainActivity.OnNudge | app/src/main/java/com/example/mapproject/MainActivity.kt:188-204 | the view's offsets change as `Nudged` says |
| Activity.MainActivity.GameLoopTick | app/src/main/java/com/example/mapproject/MainActivity.kt:38-79 | while racing, it shows the lap time of the elapsed time. In simulation it moves the player to the recorded position with the bearing from the remembered position, which is replaced only when the new latitude is not 0.0. In real mode it moves and activates the ghost. Not racing, nothing changes |

## Left out

- Opening the CSV resource, `BufferedReader`, and the outer `catch (e: Exception)` (I/O). The input is the sequence of lines, so an unreadable resource is the empty sequence.
- `String.toDouble` is an abstract parser. Which strings parse, and the value they give, are not modelled.
- `Log`, `Toast`, `TextView` text and `String.format`: user interface only. `Activity.LapTimeOf` gives the three numbers the label formats.
- `calculateBearing` delegates to `Location.bearingTo`, a library call with spherical geometry. It is the `bearing` parameter of `GameLoopTick`.
- `decodeSampledBitmapFromResource`, bitmap decoding, and the `createScaledBitmap` safety net with its float ratio: platform and float numerics. The constructor receives the final image size.
- Canvas rendering: rotation, scaling and drawing maths. `Track.TrackView.OnDraw` records only the calls and their arguments.
- `Handler` scheduling, the 16 ms re-posting of the game loop, `invalidate()`, and `System.currentTimeMillis`: timing. The current time is a parameter.
- GPS and permissions: `startGPS`, `onLocationChanged`, `onRequestPermissionsResult`. They are reachable only outside simulation mode, and their input is the platform's.
- `TrackView.setGhostLine` is called at MainActivity.kt:127 but is not defined in TrackView.kt. It is not part of this model.
- `IS_SIMULATION_MODE` is a constant `true` in the source. The model keeps it as a field set to true at construction, so the real-mode branch of the game loop is still modelled.
- IEEE double/float rounding, NaN and infinities, including the `toFloat` narrowing of the projected pixel: all arithmetic is exact over reals.
- Characters are Unicode scalar values, not UTF-16 code units, for `split` and `trim`.
- `GhostPoint`'s `var timeMs` is updated in place in the source. `getAllPoints` returns the live list, which callers could alias and mutate. The model uses values, so that aliasing is not captured.
- Ghost.GhostManager.GetPositionAtTime: the time gap and progress are computed on unbounded integers. The Long overflow of `nextPoint.timeMs - prevPoint.timeMs` for extreme times is not modelled.
- Track.TrackView.LatLonToPixels, Track.TrackView.OnDraw: with an image installed they require non-zero latitude and longitude spans. The source would divide by zero, and `onDraw` would draw at NaN or infinite coordinates.
- Activity.CalculateInSampleSize: it requires a positive requested height or width. With both ≤ 0 the source's doubling overflows `Int` and then divides by zero, which the model does not follow.
- Activity.MainActivity.GameLoopTick: the redraw request (`invalidate()`) is not modelled.
