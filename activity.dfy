/** The activity (MainActivity.kt): the bitmap sample-size helper, the lap-timer
    arithmetic, the start button, the calibration nudges and one tick of the game
    loop that replays the recorded lap. */
module Activity {
  import opened Kotlin
  import opened Division
  import Ghost
  import Track

  // ---------------------------------------------------------------------------
  // calculateInSampleSize
  // ---------------------------------------------------------------------------

  predicate IsPowerOfTwo(n: int)
    decreases n
  {
    n == 1 || (n > 1 && n % 2 == 0 && IsPowerOfTwo(n / 2))
  }

  /** The loop condition of `calculateInSampleSize`: both halved dimensions, divided by
      `sampleSize`, still reach the requested size. */
  predicate HalfStillFits(height: int, width: int, reqWidth: int, reqHeight: int, sampleSize: int)
    requires 0 < sampleSize
  {
    Quot(Quot(height, 2), sampleSize) >= reqHeight && Quot(Quot(width, 2), sampleSize) >= reqWidth
  }

  /** No power of two lies strictly between `s` and `2 * s`. */
  lemma {:induction false} NextPowerOfTwo(p: int, s: int)
    requires IsPowerOfTwo(p) && IsPowerOfTwo(s) && p < 2 * s
    ensures p <= s
    decreases s
  {
    if p != 1 && s != 1 {
      NextPowerOfTwo(p / 2, s / 2);
    }
  }

  /** The largest power of two that still leaves both halved dimensions at least the requested
      size, doubled once more, or 1 when the image already fits. A positive requested size
      bounds the loop, and the doubling never leaves the `Int` range. */
  method CalculateInSampleSize(height: int, width: int, reqWidth: int, reqHeight: int)
    returns (inSampleSize: int)
    requires IsInt(height) && IsInt(width) && IsInt(reqWidth) && IsInt(reqHeight)
    requires 0 < reqHeight || 0 < reqWidth
    ensures IsInt(inSampleSize) && 1 <= inSampleSize && IsPowerOfTwo(inSampleSize)
    ensures height <= reqHeight && width <= reqWidth ==> inSampleSize == 1
    ensures (height > reqHeight || width > reqWidth) ==>
      !HalfStillFits(height, width, reqWidth, reqHeight, inSampleSize)
    ensures forall p :: IsPowerOfTwo(p) && p < inSampleSize ==> HalfStillFits(height, width, reqWidth, reqHeight, p)
  {
    inSampleSize := 1;
    if height > reqHeight || width > reqWidth {
      var halfHeight := Quot(height, 2);
      var halfWidth := Quot(width, 2);
      var bound := if 0 < reqHeight then halfHeight else halfWidth;
      assert bound <= INT_MAX / 2;
      while Quot(halfHeight, inSampleSize) >= reqHeight && Quot(halfWidth, inSampleSize) >= reqWidth
        invariant 1 <= inSampleSize <= INT_MAX && IsPowerOfTwo(inSampleSize)
        invariant forall p :: IsPowerOfTwo(p) && p < inSampleSize ==> HalfStillFits(height, width, reqWidth, reqHeight, p)
        decreases bound - inSampleSize
      {
        QuotAtLeastOne(bound, inSampleSize);
        forall p | IsPowerOfTwo(p) && p < 2 * inSampleSize
          ensures HalfStillFits(height, width, reqWidth, reqHeight, p)
        {
          NextPowerOfTwo(p, inSampleSize);
        }
        assert (2 * inSampleSize) / 2 == inSampleSize;
        inSampleSize := inSampleSize * 2;
      }
    }
  }

  /** The result is the least power of two at which the halved image no longer fits, so
      one step smaller still fits. */
  lemma SampleSizeIsTight(height: int, width: int, reqWidth: int, reqHeight: int, inSampleSize: int)
    requires 1 < inSampleSize && IsPowerOfTwo(inSampleSize)
    requires forall p :: IsPowerOfTwo(p) && p < inSampleSize ==> HalfStillFits(height, width, reqWidth, reqHeight, p)
    ensures HalfStillFits(height, width, reqWidth, reqHeight, inSampleSize / 2)
  {
    assert IsPowerOfTwo(inSampleSize / 2);
  }

  // ---------------------------------------------------------------------------
  // The lap timer of the game loop
  // ---------------------------------------------------------------------------

  /** The three numbers the lap-time label shows; `hundredths` is the field the
      source calls `millis`. */
  datatype LapTime = LapTime(minutes: int, seconds: int, hundredths: int)

  /** The lap time of `currentTimeMs` elapsed milliseconds, with `Long`'s truncating `/` and `%`. */
  function LapTimeOf(currentTimeMs: int): (t: LapTime)
    ensures 0 <= currentTimeMs ==> 0 <= t.minutes <= 59 && 0 <= t.seconds <= 59 && 0 <= t.hundredths <= 99
    ensures currentTimeMs <= 0 ==> -59 <= t.minutes <= 0 && -59 <= t.seconds <= 0 && -99 <= t.hundredths <= 0
  {
    LapTime(Rem(Quot(currentTimeMs, 1000 * 60), 60),
            Rem(Quot(currentTimeMs, 1000), 60),
            Quot(Rem(currentTimeMs, 1000), 10))
  }

  /** Reading the three fields back recovers the elapsed time within the hour, up to the
      last millisecond digit, which the label drops. */
  lemma LapTimeRecomposes(currentTimeMs: int)
    requires 0 <= currentTimeMs
    ensures var t := LapTimeOf(currentTimeMs);
      currentTimeMs % 3600000 == t.minutes * 60000 + t.seconds * 1000 + t.hundredths * 10 + currentTimeMs % 10
  {
    var ms := currentTimeMs;
    QuotOfNatural(ms, 60000);
    QuotOfNatural(ms, 1000);
    var wholeMinutes, s := ms / 60000, ms % 60000;
    QuotOfNatural(wholeMinutes, 60);
    QuotOfNatural(ms / 1000, 60);
    QuotOfNatural(ms % 1000, 10);
    DivModUnique(ms, 1000, wholeMinutes * 60 + s / 1000, s % 1000);
    DivModUnique(ms / 1000, 60, wholeMinutes, s / 1000);
    DivModUnique(ms, 10, (ms / 1000) * 100 + (ms % 1000) / 10, (ms % 1000) % 10);
    DivModUnique(ms, 3600000, wholeMinutes / 60, (wholeMinutes % 60) * 60000 + s);
  }

  /** One minute, two seconds and 345 ms reads 01:02.34. */
  lemma LapTimeExample()
    ensures LapTimeOf(62345) == LapTime(1, 2, 34)
  {
  }

  // ---------------------------------------------------------------------------
  // Calibration nudges
  // ---------------------------------------------------------------------------

  /** Roughly half a metre, in degrees. */
  const NUDGE_AMOUNT: real := 0.000005

  datatype Nudge = Up | Down | Left | Right

  datatype Offsets = Offsets(lat: real, lon: real)

  /** The offsets after one button press: Up and Down move the latitude offset,
      Left and Right the longitude offset, by `NUDGE_AMOUNT`. */
  function Nudged(n: Nudge, o: Offsets): (r: Offsets)
    ensures n == Up || n == Down ==> r.lon == o.lon && (if n == Up then r.lat - o.lat else o.lat - r.lat) == NUDGE_AMOUNT
    ensures n == Left || n == Right ==> r.lat == o.lat && (if n == Right then r.lon - o.lon else o.lon - r.lon) == NUDGE_AMOUNT
  {
    match n
    case Up => o.(lat := o.lat + NUDGE_AMOUNT)
    case Down => o.(lat := o.lat - NUDGE_AMOUNT)
    case Left => o.(lon := o.lon - NUDGE_AMOUNT)
    case Right => o.(lon := o.lon + NUDGE_AMOUNT)
  }

  function Opposite(n: Nudge): Nudge
  {
    match n
    case Up => Down
    case Down => Up
    case Left => Right
    case Right => Left
  }

  /** Every nudge is undone by its opposite. */
  lemma NudgeUndone(n: Nudge, o: Offsets)
    ensures Nudged(Opposite(n), Nudged(n, o)) == o
  {
  }

  /** Nudges commute: the offsets depend only on how often each button was pressed. */
  lemma NudgesCommute(m: Nudge, n: Nudge, o: Offsets)
    ensures Nudged(m, Nudged(n, o)) == Nudged(n, Nudged(m, o))
  {
  }

  // ---------------------------------------------------------------------------
  // The activity
  // ---------------------------------------------------------------------------

  /** The map corners of the Lusail circuit image. */
  const TRACK_TOP_LEFT_LAT: real := 25.497417
  const TRACK_TOP_LEFT_LON: real := 51.445786
  const TRACK_BOTTOM_RIGHT_LAT: real := 25.483625
  const TRACK_BOTTOM_RIGHT_LON: real := 51.461261

  /** The bearing in degrees from a start to an end position (`Location.bearingTo`). */
  type Bearing = (real, real, real, real) -> real

  class MainActivity {
    const trackView: Track.TrackView
    const ghostManager: Ghost.GhostManager
    /** Replay the recording as the player (true) or race the recording as a ghost (false). */
    const isSimulationMode: bool

    var isRacing: bool
    var raceStartTime: int
    var lastSimLat: real
    var lastSimLon: real

    /** `onCreate`: load the recording, install the (already decoded and resized) track image
        with the circuit's corners, and wait for the start button. */
    constructor (lines: seq<string>, parse: Ghost.NumberParser, bitmap: Track.Bitmap)
      ensures fresh(trackView) && fresh(ghostManager)
      ensures isSimulationMode
      ensures ghostManager.points == Ghost.LoadedPoints(lines, parse) && ghostManager.Valid()
      ensures trackView.trackBitmap == Some(bitmap)
      ensures trackView.topLeftLat == TRACK_TOP_LEFT_LAT && trackView.topLeftLon == TRACK_TOP_LEFT_LON
      ensures trackView.bottomRightLat == TRACK_BOTTOM_RIGHT_LAT && trackView.bottomRightLon == TRACK_BOTTOM_RIGHT_LON
      ensures trackView.HasSpans() && !trackView.isGhostActive
      ensures trackView.calibrationLatOffset == Track.DEFAULT_CALIBRATION_LAT_OFFSET
      ensures trackView.calibrationLonOffset == Track.DEFAULT_CALIBRATION_LON_OFFSET
      ensures !isRacing && raceStartTime == 0 && lastSimLat == 0.0 && lastSimLon == 0.0
    {
      isSimulationMode := true;
      isRacing := false;
      raceStartTime := 0;
      lastSimLat, lastSimLon := 0.0, 0.0;
      var view := new Track.TrackView();
      ghostManager := new Ghost.GhostManager(lines, parse);
      view.SetupTrack(bitmap, TRACK_TOP_LEFT_LAT, TRACK_TOP_LEFT_LON, TRACK_BOTTOM_RIGHT_LAT, TRACK_BOTTOM_RIGHT_LON);
      trackView := view;
    }

    /** The start button: starts the race at `now` unless one is already running. */
    method OnStartClick(now: int)
      modifies this`isRacing, this`raceStartTime
      ensures isRacing
      ensures raceStartTime == if old(isRacing) then old(raceStartTime) else now
    {
      if !isRacing {
        isRacing := true;
        raceStartTime := now;
      }
    }

    /** A calibration button: moves the view's offsets as `Nudged` says. */
    method OnNudge(n: Nudge)
      modifies trackView`calibrationLatOffset, trackView`calibrationLonOffset
      ensures Offsets(trackView.calibrationLatOffset, trackView.calibrationLonOffset)
              == Nudged(n, Offsets(old(trackView.calibrationLatOffset), old(trackView.calibrationLonOffset)))
    {
      match n
      case Up => trackView.calibrationLatOffset := trackView.calibrationLatOffset + NUDGE_AMOUNT;
      case Down => trackView.calibrationLatOffset := trackView.calibrationLatOffset - NUDGE_AMOUNT;
      case Left => trackView.calibrationLonOffset := trackView.calibrationLonOffset - NUDGE_AMOUNT;
      case Right => trackView.calibrationLonOffset := trackView.calibrationLonOffset + NUDGE_AMOUNT;
    }

    /** One run of the game loop at wall-clock time `now`. While racing it returns the lap time
        to show and moves the player (simulation) or the ghost (real mode) to the recorded
        position at the elapsed time; the heading comes from the last remembered position,
        which is replaced only by a point whose latitude is not 0.0. Not racing, it does nothing. */
    method GameLoopTick(now: int, bearing: Bearing) returns (shown: Option<LapTime>)
      modifies this`lastSimLat, this`lastSimLon
      modifies trackView`playerLat, trackView`playerLon, trackView`playerHeading
      modifies trackView`isGhostActive, trackView`ghostLat, trackView`ghostLon
      ensures !isRacing ==> shown == None && unchanged(this) && unchanged(trackView)
      ensures isRacing ==> shown == Some(LapTimeOf(now - raceStartTime))
      ensures var at := ghostManager.GetPositionAtTime(now - raceStartTime);
        var drive := isRacing && isSimulationMode && at.Some?;
        var chase := isRacing && !isSimulationMode && at.Some?;
        && (drive ==>
              && trackView.playerLat == at.value.lat && trackView.playerLon == at.value.lon
              && trackView.playerHeading == bearing(old(lastSimLat), old(lastSimLon), at.value.lat, at.value.lon))
        && (drive && at.value.lat != 0.0 ==> lastSimLat == at.value.lat && lastSimLon == at.value.lon)
        && (!(drive && at.value.lat != 0.0) ==> lastSimLat == old(lastSimLat) && lastSimLon == old(lastSimLon))
        && (!drive ==> unchanged(trackView`playerLat, trackView`playerLon, trackView`playerHeading))
        && (chase ==> trackView.isGhostActive && trackView.ghostLat == at.value.lat && trackView.ghostLon == at.value.lon)
        && (!chase ==> unchanged(trackView`isGhostActive, trackView`ghostLat, trackView`ghostLon))
    {
      shown := None;
      if isRacing {
        var currentTimeMs := now - raceStartTime;
        shown := Some(LapTimeOf(currentTimeMs));
        if isSimulationMode {
          var simPoint := ghostManager.GetPositionAtTime(currentTimeMs);
          if simPoint.Some? {
            var heading := bearing(lastSimLat, lastSimLon, simPoint.value.lat, simPoint.value.lon);
            trackView.UpdatePlayerPosition(simPoint.value.lat, simPoint.value.lon, heading);
            if simPoint.value.lat != 0.0 {
              lastSimLat := simPoint.value.lat;
              lastSimLon := simPoint.value.lon;
            }
          }
        } else {
          var ghostPoint := ghostManager.GetPositionAtTime(currentTimeMs);
          if ghostPoint.Some? {
            trackView.UpdateGhostPosition(ghostPoint.value.lat, ghostPoint.value.lon);
          }
        }
      }
    }
  }
}
