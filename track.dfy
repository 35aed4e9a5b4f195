/** The map view (TrackView.kt): a raster image of the track whose corners are
    pinned to geographic coordinates, the player and ghost positions drawn on
    it, and the projection from calibrated latitude/longitude to image pixels. */
module Track {
  import opened Kotlin

  /** The decoded track image; only its size matters here. */
  datatype Bitmap = Bitmap(width: nat, height: nat)

  /** A position on the track image, in pixels from its top-left corner. */
  datatype Pixel = Pixel(x: real, y: real)

  datatype Marker = PlayerMarker | GhostMarker

  /** The canvas calls `onDraw` makes, in order, recorded as data. */
  datatype DrawOp =
    | Save
    | Restore
    | Translate(dx: real, dy: real)
    | Rotate(degrees: real)
    | Scale(sx: real, sy: real)
    | DrawMap
    | DrawCircle(cx: real, cy: real, radius: real, marker: Marker)

  const DEFAULT_CALIBRATION_LAT_OFFSET: real := -0.000045
  const DEFAULT_CALIBRATION_LON_OFFSET: real := -0.000035
  const DEFAULT_ZOOM_LEVEL: real := 6.0
  const GHOST_RADIUS: real := 20.0
  const PLAYER_RADIUS: real := 30.0

  class TrackView {
    var trackBitmap: Option<Bitmap>

    // The geographic coordinates of the image's top-left and bottom-right corners.
    var topLeftLat: real
    var topLeftLon: real
    var bottomRightLat: real
    var bottomRightLon: real

    var playerLat: real
    var playerLon: real
    var playerHeading: real

    var isGhostActive: bool
    var ghostLat: real
    var ghostLon: real

    // Public: the activity's nudge buttons adjust these.
    var calibrationLatOffset: real
    var calibrationLonOffset: real

    var zoomLevel: real

    /** A fresh view: no image, every coordinate zero, no ghost, the default calibration and zoom. */
    constructor ()
      ensures trackBitmap == None
      ensures topLeftLat == 0.0 && topLeftLon == 0.0 && bottomRightLat == 0.0 && bottomRightLon == 0.0
      ensures playerLat == 0.0 && playerLon == 0.0 && playerHeading == 0.0
      ensures !isGhostActive && ghostLat == 0.0 && ghostLon == 0.0
      ensures calibrationLatOffset == DEFAULT_CALIBRATION_LAT_OFFSET
      ensures calibrationLonOffset == DEFAULT_CALIBRATION_LON_OFFSET
      ensures zoomLevel == DEFAULT_ZOOM_LEVEL
    {
      trackBitmap := None;
      topLeftLat, topLeftLon, bottomRightLat, bottomRightLon := 0.0, 0.0, 0.0, 0.0;
      playerLat, playerLon, playerHeading := 0.0, 0.0, 0.0;
      isGhostActive, ghostLat, ghostLon := false, 0.0, 0.0;
      calibrationLatOffset := DEFAULT_CALIBRATION_LAT_OFFSET;
      calibrationLonOffset := DEFAULT_CALIBRATION_LON_OFFSET;
      zoomLevel := DEFAULT_ZOOM_LEVEL;
    }

    /** Installs the image and its corner coordinates, stored as given. */
    method SetupTrack(bitmap: Bitmap, tlLat: real, tlLon: real, brLat: real, brLon: real)
      modifies this`trackBitmap, this`topLeftLat, this`topLeftLon, this`bottomRightLat, this`bottomRightLon
      ensures trackBitmap == Some(bitmap)
      ensures topLeftLat == tlLat && topLeftLon == tlLon && bottomRightLat == brLat && bottomRightLon == brLon
      ensures isGhostActive == old(isGhostActive)
    {
      trackBitmap := Some(bitmap);
      topLeftLat := tlLat;
      topLeftLon := tlLon;
      bottomRightLat := brLat;
      bottomRightLon := brLon;
    }

    /** Moves the player; the ghost, the bounds and the calibration stay as they were. */
    method UpdatePlayerPosition(lat: real, lon: real, heading: real)
      modifies this`playerLat, this`playerLon, this`playerHeading
      ensures playerLat == lat && playerLon == lon && playerHeading == heading
      ensures isGhostActive == old(isGhostActive)
    {
      playerLat := lat;
      playerLon := lon;
      playerHeading := heading;
    }

    /** Moves the ghost and shows it; no operation of the view hides it again. */
    method UpdateGhostPosition(lat: real, lon: real)
      modifies this`isGhostActive, this`ghostLat, this`ghostLon
      ensures isGhostActive
      ensures ghostLat == lat && ghostLon == lon
    {
      isGhostActive := true;
      ghostLat := lat;
      ghostLon := lon;
    }

    /** The corner coordinates of an installed image span a non-zero latitude and longitude range. */
    predicate HasSpans()
      reads this
    {
      trackBitmap.Some? ==> topLeftLat != bottomRightLat && bottomRightLon != topLeftLon
    }

    /** The calibrated position as a fraction of the image, scaled to its pixels;
        (0, 0) while no image is installed. */
    function LatLonToPixels(lat: real, lon: real): (p: Pixel)
      reads this
      requires HasSpans()
      ensures trackBitmap.None? ==> p == Pixel(0.0, 0.0)
      ensures trackBitmap.Some? ==>
        && p.x * (bottomRightLon - topLeftLon) == (lon + calibrationLonOffset - topLeftLon) * trackBitmap.value.width as real
        && p.y * (topLeftLat - bottomRightLat) == (topLeftLat - (lat + calibrationLatOffset)) * trackBitmap.value.height as real
    {
      if trackBitmap.None? then Pixel(0.0, 0.0)
      else
        var adjustedLat := lat + calibrationLatOffset;
        var adjustedLon := lon + calibrationLonOffset;
        var mapWidth := trackBitmap.value.width as real;
        var mapHeight := trackBitmap.value.height as real;
        var latSpan := topLeftLat - bottomRightLat;
        var lonSpan := bottomRightLon - topLeftLon;
        var latProgress := (topLeftLat - adjustedLat) / latSpan;
        var lonProgress := (adjustedLon - topLeftLon) / lonSpan;
        Pixel(lonProgress * mapWidth, latProgress * mapHeight)
    }

    /** The calls of one `onDraw` on a view of the given size: nothing without an image;
        otherwise the camera transform, the map, the ghost marker if it is active, and the
        player marker fixed at the centre of the view. */
    function OnDraw(viewWidth: int, viewHeight: int): (ops: seq<DrawOp>)
      reads this
      requires HasSpans()
      ensures trackBitmap.None? <==> ops == []
      ensures trackBitmap.Some? ==>
        && |ops| == (if isGhostActive then 9 else 8)
        && ops[0] == Save
        && ops[1] == Translate(viewWidth as real / 2.0, viewHeight as real / 2.0)
        && ops[2] == Rotate(-playerHeading)
        && ops[3] == Scale(zoomLevel, zoomLevel)
        && ops[4] == Translate(-LatLonToPixels(playerLat, playerLon).x, -LatLonToPixels(playerLat, playerLon).y)
        && ops[5] == DrawMap
        && ops[|ops| - 2] == Restore
        && ops[|ops| - 1] == DrawCircle(viewWidth as real / 2.0, viewHeight as real / 2.0, PLAYER_RADIUS, PlayerMarker)
      ensures forall i :: 0 <= i < |ops| && ops[i].DrawCircle? ==>
        (ops[i].marker == GhostMarker <==> isGhostActive && i == 6)
      ensures isGhostActive && trackBitmap.Some? ==>
        var g := LatLonToPixels(ghostLat, ghostLon); ops[6] == DrawCircle(g.x, g.y, GHOST_RADIUS, GhostMarker)
    {
      if trackBitmap.None? then []
      else
        var cx := viewWidth as real / 2.0;
        var cy := viewHeight as real / 2.0;
        var player := LatLonToPixels(playerLat, playerLon);
        var ghostPx := LatLonToPixels(ghostLat, ghostLon);
        var world := [Save, Translate(cx, cy), Rotate(-playerHeading), Scale(zoomLevel, zoomLevel),
                      Translate(-player.x, -player.y), DrawMap];
        var ghostOps := if isGhostActive then [DrawCircle(ghostPx.x, ghostPx.y, GHOST_RADIUS, GhostMarker)] else [];
        world + ghostOps + [Restore, DrawCircle(cx, cy, PLAYER_RADIUS, PlayerMarker)]
    }
  }

  // ---------------------------------------------------------------------------
  // Properties of the projection
  // ---------------------------------------------------------------------------

  /** An image is installed and its bounds are not degenerate. */
  predicate Projecting(v: TrackView)
    reads v
  {
    v.trackBitmap.Some? && v.topLeftLat != v.bottomRightLat && v.bottomRightLon != v.topLeftLon
  }

  /** The calibrated corners land on the image corners. */
  lemma CornersProjectToImageCorners(v: TrackView)
    requires Projecting(v)
    ensures v.LatLonToPixels(v.topLeftLat - v.calibrationLatOffset, v.topLeftLon - v.calibrationLonOffset)
            == Pixel(0.0, 0.0)
    ensures v.LatLonToPixels(v.bottomRightLat - v.calibrationLatOffset, v.bottomRightLon - v.calibrationLonOffset)
            == Pixel(v.trackBitmap.value.width as real, v.trackBitmap.value.height as real)
  {
  }

  /** The calibrated centre of the bounds lands on the centre of the image. */
  lemma CentreProjectsToImageCentre(v: TrackView)
    requires Projecting(v)
    ensures v.LatLonToPixels((v.topLeftLat + v.bottomRightLat) / 2.0 - v.calibrationLatOffset,
                             (v.topLeftLon + v.bottomRightLon) / 2.0 - v.calibrationLonOffset)
            == Pixel(v.trackBitmap.value.width as real / 2.0, v.trackBitmap.value.height as real / 2.0)
  {
  }

  /** Moving east by `d` degrees moves the pixel right by `d * mapWidth / lonSpan` and leaves its row alone. */
  lemma LongitudeShiftMovesOnlyX(v: TrackView, lat: real, lon: real, d: real)
    requires Projecting(v)
    ensures var p, q := v.LatLonToPixels(lat, lon), v.LatLonToPixels(lat, lon + d);
      && q.x == p.x + d * v.trackBitmap.value.width as real / (v.bottomRightLon - v.topLeftLon)
      && q.y == p.y
  {
  }

  /** Moving north by `d` degrees moves the pixel up by `d * mapHeight / latSpan` and leaves its column alone. */
  lemma LatitudeShiftMovesOnlyY(v: TrackView, lat: real, lon: real, d: real)
    requires Projecting(v)
    ensures var p, q := v.LatLonToPixels(lat, lon), v.LatLonToPixels(lat + d, lon);
      && q.y == p.y - d * v.trackBitmap.value.height as real / (v.topLeftLat - v.bottomRightLat)
      && q.x == p.x
  {
  }

  /** Nothing is clamped: on a north-up image a position lands inside the image exactly
      when its calibrated coordinates lie within the bounds, and outside it otherwise. */
  lemma InsideImageIffInsideBounds(v: TrackView, lat: real, lon: real)
    requires Projecting(v)
    requires v.topLeftLat > v.bottomRightLat && v.bottomRightLon > v.topLeftLon
    requires v.trackBitmap.value.width > 0 && v.trackBitmap.value.height > 0
    ensures var p := v.LatLonToPixels(lat, lon);
      && (0.0 <= p.x <= v.trackBitmap.value.width as real
          <==> v.topLeftLon <= lon + v.calibrationLonOffset <= v.bottomRightLon)
      && (0.0 <= p.y <= v.trackBitmap.value.height as real
          <==> v.bottomRightLat <= lat + v.calibrationLatOffset <= v.topLeftLat)
  {
    var p := v.LatLonToPixels(lat, lon);
    var w, h := v.trackBitmap.value.width as real, v.trackBitmap.value.height as real;
    var lonSpan, latSpan := v.bottomRightLon - v.topLeftLon, v.topLeftLat - v.bottomRightLat;
    var east := lon + v.calibrationLonOffset - v.topLeftLon;
    var south := v.topLeftLat - (lat + v.calibrationLatOffset);
    SameSign(p.x, lonSpan, east, w);
    SameSign(w - p.x, lonSpan, lonSpan - east, w);
    SameSign(p.y, latSpan, south, h);
    SameSign(h - p.y, latSpan, latSpan - south, h);
  }

  /** Scaling by positive factors keeps the sign. */
  lemma SameSign(u: real, s: real, t: real, w: real)
    requires 0.0 < s && 0.0 < w && u * s == t * w
    ensures 0.0 <= u <==> 0.0 <= t
  {
    if 0.0 <= u {
      assert 0.0 <= u * s;
    } else {
      assert u * s < 0.0;
    }
    if 0.0 <= t {
      assert 0.0 <= t * w;
    } else {
      assert t * w < 0.0;
    }
  }

  /** Distinct positions land on distinct pixels of a non-empty image. */
  lemma ProjectionIsInjective(v: TrackView, lat1: real, lon1: real, lat2: real, lon2: real)
    requires Projecting(v)
    requires v.trackBitmap.value.width > 0 && v.trackBitmap.value.height > 0
    requires v.LatLonToPixels(lat1, lon1) == v.LatLonToPixels(lat2, lon2)
    ensures lat1 == lat2 && lon1 == lon2
  {
    var p := v.LatLonToPixels(lat1, lon1);
    var w, h := v.trackBitmap.value.width as real, v.trackBitmap.value.height as real;
    CancelFactor(lon1 + v.calibrationLonOffset - v.topLeftLon, lon2 + v.calibrationLonOffset - v.topLeftLon, w);
    CancelFactor(v.topLeftLat - (lat1 + v.calibrationLatOffset), v.topLeftLat - (lat2 + v.calibrationLatOffset), h);
  }

  lemma CancelFactor(a: real, b: real, c: real)
    requires c != 0.0 && a * c == b * c
    ensures a == b
  {
    assert (a - b) * c == 0.0;
  }

  /** The calibration offsets are added to the position before projecting: changing them
      is the same as projecting a position moved by the change. */
  lemma CalibrationMovesThePosition(v: TrackView, w: TrackView, lat: real, lon: real)
    requires Projecting(v)
    requires w.trackBitmap == v.trackBitmap
    requires w.topLeftLat == v.topLeftLat && w.topLeftLon == v.topLeftLon
    requires w.bottomRightLat == v.bottomRightLat && w.bottomRightLon == v.bottomRightLon
    ensures w.HasSpans()
    ensures w.LatLonToPixels(lat, lon)
            == v.LatLonToPixels(lat + (w.calibrationLatOffset - v.calibrationLatOffset),
                                lon + (w.calibrationLonOffset - v.calibrationLonOffset))
  {
  }
}
