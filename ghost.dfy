/** The ghost lap (GhostManager.kt): a recorded trajectory read from CSV lines
    of `seconds,lat,lon`, kept sorted by time with the earliest sample moved
    to time zero, and replayed by piecewise-linear interpolation. */
module Ghost {
  import opened Kotlin

  /** One recorded sample: milliseconds since the start of the lap and a position in degrees. */
  datatype GhostPoint = GhostPoint(timeMs: int, lat: real, lon: real)

  /** `String.toDouble()`, left abstract: `None` stands for the NumberFormatException it throws. */
  type NumberParser = string -> Option<real>

  // ---------------------------------------------------------------------------
  // Reading the CSV lines
  // ---------------------------------------------------------------------------

  /** A line yields a point exactly when `split(",")` gives at least three fields
      and the first three, trimmed, all parse as numbers. */
  predicate WellFormed(line: string, parse: NumberParser)
  {
    var parts := Split(line, ',');
    && |parts| >= 3
    && parse(Trim(parts[0])).Some?
    && parse(Trim(parts[1])).Some?
    && parse(Trim(parts[2])).Some?
  }

  /** The point read from the fields of a split line: the first three, trimmed, must parse. */
  function ParseFields(parts: seq<string>, parse: NumberParser): Option<GhostPoint>
  {
    if |parts| < 3 then None
    else
      var timeSeconds, lat, lon := parse(Trim(parts[0])), parse(Trim(parts[1])), parse(Trim(parts[2]));
      if timeSeconds.Some? && lat.Some? && lon.Some? then
        Some(GhostPoint(DoubleToLong(timeSeconds.value * 1000.0), lat.value, lon.value))
      else None
  }

  /** One iteration of the `forEachLine` loop: the point the line contributes, if any.
      Seconds become milliseconds by `toLong`, which truncates toward zero. */
  function ParseLine(line: string, parse: NumberParser): (p: Option<GhostPoint>)
    ensures p.Some? <==> WellFormed(line, parse)
    ensures p.Some? ==> IsLong(p.value.timeMs)
  {
    ParseFields(Split(line, ','), parse)
  }

  /** What `points.add` receives for one line: its point, or nothing. */
  function LinePoints(line: string, parse: NumberParser): seq<GhostPoint>
  {
    var p := ParseLine(line, parse);
    if p.Some? then [p.value] else []
  }

  /** The body of the `forEachLine` loop, as a value. */
  function LineReader(parse: NumberParser): string -> seq<GhostPoint>
  {
    line => LinePoints(line, parse)
  }

  /** The `forEachLine` loop: what `read` yields for each line, appended in line order. */
  function ForEachLine(lines: seq<string>, read: string -> seq<GhostPoint>): seq<GhostPoint>
  {
    if lines == [] then []
    else ForEachLine(lines[..|lines| - 1], read) + read(lines[|lines| - 1])
  }

  /** The points collected from `lines`, in line order. */
  function ParseLines(lines: seq<string>, parse: NumberParser): seq<GhostPoint>
  {
    ForEachLine(lines, LineReader(parse))
  }

  lemma ForEachLineSnoc(lines: seq<string>, line: string, read: string -> seq<GhostPoint>)
    ensures ForEachLine(lines + [line], read) == ForEachLine(lines, read) + read(line)
  {
    assert (lines + [line])[..|lines|] == lines;
  }

  /** Lines are read independently: the points of a concatenation are the concatenated points. */
  lemma {:induction false} ForEachLineAppend(a: seq<string>, b: seq<string>, read: string -> seq<GhostPoint>)
    ensures ForEachLine(a + b, read) == ForEachLine(a, read) + ForEachLine(b, read)
    decreases |b|
  {
    if b == [] {
      assert a + b == a;
    } else {
      var b', last := b[..|b| - 1], b[|b| - 1];
      calc {
        ForEachLine(a + b, read);
        { assert a + b == (a + b') + [last]; }
        ForEachLine((a + b') + [last], read);
        { ForEachLineSnoc(a + b', last, read); }
        ForEachLine(a + b', read) + read(last);
        { ForEachLineAppend(a, b', read); }
        ForEachLine(a, read) + ForEachLine(b', read) + read(last);
        { ForEachLineSnoc(b', last, read); assert b == b' + [last]; }
        ForEachLine(a, read) + ForEachLine(b, read);
      }
    }
  }

  function CountWellFormed(lines: seq<string>, parse: NumberParser): nat
  {
    if lines == [] then 0
    else CountWellFormed(lines[..|lines| - 1], parse) + (if WellFormed(lines[|lines| - 1], parse) then 1 else 0)
  }

  /** A line made of the given comma-free fields is read from its first three fields alone;
      any further fields are ignored. */
  lemma ParseLineOfFields(fields: seq<string>, parse: NumberParser)
    requires |fields| >= 3
    requires forall i :: 0 <= i < |fields| ==> ',' !in fields[i]
    ensures var p := ParseLine(Join(fields, ','), parse);
      && (p.Some? <==> parse(Trim(fields[0])).Some? && parse(Trim(fields[1])).Some? && parse(Trim(fields[2])).Some?)
      && (p.Some? ==> p.value == GhostPoint(DoubleToLong(parse(Trim(fields[0])).value * 1000.0),
                                            parse(Trim(fields[1])).value, parse(Trim(fields[2])).value))
  {
    JoinSplit(fields, ',');
  }

  /** Seconds are converted by truncation, not rounding: 1.5 ms is stored as 1, and -1.5 ms as -1. */
  lemma MillisAreTruncated()
    ensures DoubleToLong(0.0015 * 1000.0) == 1
    ensures DoubleToLong(-0.0015 * 1000.0) == -1
    ensures DoubleToLong(2.0019 * 1000.0) == 2001
  {}

  /** One point per well-formed line. */
  lemma {:induction false} ParseLinesCount(lines: seq<string>, parse: NumberParser)
    ensures |ParseLines(lines, parse)| == CountWellFormed(lines, parse)
  {
    if lines != [] {
      var init := lines[..|lines| - 1];
      ParseLinesCount(init, parse);
      assert lines == init + [lines[|lines| - 1]];
      ForEachLineSnoc(init, lines[|lines| - 1], LineReader(parse));
    }
  }

  /** A line for which `read` yields nothing leaves the lines around it unaffected. */
  lemma ForEachLineSkip(before: seq<string>, line: string, after: seq<string>, read: string -> seq<GhostPoint>)
    requires read(line) == []
    ensures ForEachLine(before + [line] + after, read) == ForEachLine(before + after, read)
  {
    calc {
      ForEachLine(before + [line] + after, read);
      { ForEachLineAppend(before + [line], after, read); }
      ForEachLine(before + [line], read) + ForEachLine(after, read);
      { ForEachLineSnoc(before, line, read); }
      ForEachLine(before, read) + ForEachLine(after, read);
      { ForEachLineAppend(before, after, read); }
      ForEachLine(before + after, read);
    }
  }

  /** A malformed line is skipped without affecting the lines around it. */
  lemma MalformedLineIsSkipped(before: seq<string>, line: string, after: seq<string>, parse: NumberParser)
    requires !WellFormed(line, parse)
    ensures ParseLines(before + [line] + after, parse) == ParseLines(before + after, parse)
  {
    assert LineReader(parse)(line) == [];
    ForEachLineSkip(before, line, after, LineReader(parse));
  }

  /** Reading one more line adds that line's point, if any. */
  lemma ParseLinesPrefix(lines: seq<string>, i: nat, parse: NumberParser)
    requires i < |lines|
    ensures ParseLines(lines[..i + 1], parse) == ParseLines(lines[..i], parse) + LinePoints(lines[i], parse)
  {
    assert lines[..i + 1] == lines[..i] + [lines[i]];
    ForEachLineSnoc(lines[..i], lines[i], LineReader(parse));
  }

  /** What holds of everything `read` yields holds of everything collected. */
  lemma {:induction false} ForEachLineAll(lines: seq<string>, read: string -> seq<GhostPoint>, ok: GhostPoint -> bool)
    requires forall line, x :: x in read(line) ==> ok(x)
    ensures forall x :: x in ForEachLine(lines, read) ==> ok(x)
  {
    if lines != [] {
      ForEachLineAll(lines[..|lines| - 1], read, ok);
    }
  }

  /** Every collected time is a Long, because `toLong` saturates. */
  lemma ParseLinesInLongRange(lines: seq<string>, parse: NumberParser)
    ensures forall i :: 0 <= i < |ParseLines(lines, parse)| ==> IsLong(ParseLines(lines, parse)[i].timeMs)
  {
    var read := LineReader(parse);
    var ok := (x: GhostPoint) => IsLong(x.timeMs);
    forall line, x | x in read(line) ensures ok(x) {
      assert x == ParseLine(line, parse).value;
    }
    ForEachLineAll(lines, read, ok);
    var pts := ParseLines(lines, parse);
    forall i | 0 <= i < |pts| ensures IsLong(pts[i].timeMs) {
      assert ok(pts[i]);
    }
  }

  // ---------------------------------------------------------------------------
  // `points.sortBy { it.timeMs }`: a stable sort by time
  // ---------------------------------------------------------------------------

  predicate SortedByTime(s: seq<GhostPoint>)
  {
    forall i, j :: 0 <= i < j < |s| ==> s[i].timeMs <= s[j].timeMs
  }

  /** Puts `p` in front of the first element of the sorted `s` whose time is not
      before its own, so behind every element with a smaller time. */
  function InsertByTime(p: GhostPoint, s: seq<GhostPoint>): (r: seq<GhostPoint>)
    requires SortedByTime(s)
    ensures |r| == |s| + 1
    ensures SortedByTime(r)
    ensures multiset(r) == multiset(s) + multiset{p}
    ensures r[0] == p || (s != [] && r[0] == s[0])
  {
    if s == [] || p.timeMs <= s[0].timeMs then [p] + s
    else
      assert s == [s[0]] + s[1..];
      [s[0]] + InsertByTime(p, s[1..])
  }

  /** The sorted list: a permutation of `s`, ordered by time. */
  function SortByTime(s: seq<GhostPoint>): (r: seq<GhostPoint>)
    ensures |r| == |s|
    ensures SortedByTime(r)
    ensures multiset(r) == multiset(s)
  {
    if s == [] then []
    else
      assert s == [s[0]] + s[1..];
      InsertByTime(s[0], SortByTime(s[1..]))
  }

  /** The elements of `s` recorded at time `t`, in order. */
  function AtTime(s: seq<GhostPoint>, t: int): seq<GhostPoint>
  {
    if s == [] then [] else (if s[0].timeMs == t then [s[0]] else []) + AtTime(s[1..], t)
  }

  lemma {:induction false} InsertByTimeAtTime(p: GhostPoint, s: seq<GhostPoint>, t: int)
    requires SortedByTime(s)
    ensures AtTime(InsertByTime(p, s), t) == (if p.timeMs == t then [p] else []) + AtTime(s, t)
  {
    if s == [] || p.timeMs <= s[0].timeMs {
      assert ([p] + s)[1..] == s;
    } else {
      var rest := InsertByTime(p, s[1..]);
      InsertByTimeAtTime(p, s[1..], t);
      assert ([s[0]] + rest)[1..] == rest;
    }
  }

  /** `sortBy` is stable: samples sharing a time keep the order of their lines. */
  lemma {:induction false} SortByTimeIsStable(s: seq<GhostPoint>, t: int)
    ensures AtTime(SortByTime(s), t) == AtTime(s, t)
  {
    if s != [] {
      SortByTimeIsStable(s[1..], t);
      InsertByTimeAtTime(s[0], SortByTime(s[1..]), t);
    }
  }

  // ---------------------------------------------------------------------------
  // Normalising the start time
  // ---------------------------------------------------------------------------

  function ShiftTimes(s: seq<GhostPoint>, d: int): seq<GhostPoint>
  {
    seq(|s|, i requires 0 <= i < |s| => s[i].(timeMs := s[i].timeMs - d))
  }

  /** If the first time is positive it is subtracted from every time; otherwise nothing changes.
      Positions are never touched and time differences are preserved. */
  function NormalizeStart(s: seq<GhostPoint>): (r: seq<GhostPoint>)
    ensures |r| == |s|
    ensures forall i :: 0 <= i < |s| ==> r[i].lat == s[i].lat && r[i].lon == s[i].lon
    ensures forall i, j :: 0 <= i < |s| && 0 <= j < |s| ==> r[i].timeMs - r[j].timeMs == s[i].timeMs - s[j].timeMs
    ensures s != [] && s[0].timeMs > 0 ==> r[0].timeMs == 0
    ensures s == [] || s[0].timeMs <= 0 ==> r == s
  {
    if s != [] && s[0].timeMs > 0 then ShiftTimes(s, s[0].timeMs) else s
  }

  /** On a sorted list normalisation keeps the order, keeps every time in the Long
      range, and leaves the first time at or below zero. */
  lemma NormalizeStartOfSorted(s: seq<GhostPoint>)
    requires SortedByTime(s)
    requires forall i :: 0 <= i < |s| ==> IsLong(s[i].timeMs)
    ensures var r := NormalizeStart(s);
      && SortedByTime(r)
      && (forall i :: 0 <= i < |r| ==> IsLong(r[i].timeMs))
      && (r != [] ==> r[0].timeMs <= 0)
      && (s != [] && s[0].timeMs > 0 ==> forall i :: 0 <= i < |r| ==> 0 <= r[i].timeMs)
  {
    var r := NormalizeStart(s);
    if s != [] && s[0].timeMs > 0 {
      forall i | 0 <= i < |r| ensures 0 <= r[i].timeMs && IsLong(r[i].timeMs) {
        assert r[i].timeMs - r[0].timeMs == s[i].timeMs - s[0].timeMs;
      }
      forall i, j | 0 <= i < j < |r| ensures r[i].timeMs <= r[j].timeMs {
        assert r[j].timeMs - r[i].timeMs == s[j].timeMs - s[i].timeMs;
      }
    }
  }

  /** What the constructor leaves in `points`. */
  function LoadedPoints(lines: seq<string>, parse: NumberParser): seq<GhostPoint>
  {
    NormalizeStart(SortByTime(ParseLines(lines, parse)))
  }

  /** After construction: one point per well-formed line, sorted by time, every time a Long,
      and the first time zero when the earliest recorded time was positive (never above zero). */
  lemma LoadedPointsFacts(lines: seq<string>, parse: NumberParser)
    ensures var pts := LoadedPoints(lines, parse);
      && |pts| == CountWellFormed(lines, parse)
      && SortedByTime(pts)
      && (forall i :: 0 <= i < |pts| ==> IsLong(pts[i].timeMs))
      && (pts != [] ==> pts[0].timeMs <= 0)
      && (var sorted := SortByTime(ParseLines(lines, parse));
          sorted != [] && sorted[0].timeMs > 0 ==> pts[0].timeMs == 0)
  {
    var parsed := ParseLines(lines, parse);
    var sorted := SortByTime(parsed);
    ParseLinesCount(lines, parse);
    ParseLinesInLongRange(lines, parse);
    forall i | 0 <= i < |sorted| ensures IsLong(sorted[i].timeMs) {
      assert sorted[i] in multiset(parsed);
      var j :| 0 <= j < |parsed| && parsed[j] == sorted[i];
    }
    NormalizeStartOfSorted(sorted);
  }

  // ---------------------------------------------------------------------------
  // Interpolation
  // ---------------------------------------------------------------------------

  /** `indexOfFirst { it.timeMs >= t }`: the first index whose time is not before `t`, or -1. */
  function IndexOfFirst(s: seq<GhostPoint>, t: int): (k: int)
    ensures -1 <= k < |s|
    ensures k == -1 <==> forall i :: 0 <= i < |s| ==> s[i].timeMs < t
    ensures 0 <= k ==> t <= s[k].timeMs && forall i :: 0 <= i < k ==> s[i].timeMs < t
  {
    if s == [] then -1
    else if s[0].timeMs >= t then 0
    else
      var k := IndexOfFirst(s[1..], t);
      if k == -1 then -1 else k + 1
  }

  /** How far `t` has progressed from `prevMs` towards `nextMs`; 0 when the two times coincide. */
  function Fraction(prevMs: int, nextMs: int, t: int): (f: real)
    ensures prevMs < t <= nextMs ==> 0.0 < f <= 1.0
    ensures prevMs < nextMs ==> (f == 1.0 <==> t == nextMs)
  {
    var timeGap := nextMs - prevMs;
    var timeProgress := t - prevMs;
    if timeGap == 0 then 0.0 else timeProgress as real / timeGap as real
  }

  lemma FractionHalfway(prevMs: int, nextMs: int, t: int)
    requires prevMs < nextMs && 2 * t == prevMs + nextMs
    ensures Fraction(prevMs, nextMs, t) == 0.5
  {
    var x, y := (t - prevMs) as real, (nextMs - prevMs) as real;
    assert y == 2.0 * x;
    assert x / (2.0 * x) == 0.5;
  }

  predicate Between(x: real, a: real, b: real)
  {
    (a <= x <= b) || (b <= x <= a)
  }

  lemma LerpBetween(a: real, b: real, f: real)
    requires 0.0 <= f <= 1.0
    ensures Between(a + (b - a) * f, a, b)
  {
    var d := b - a;
    MulNonNegative(if a <= b then d else -d, f);
    MulNonNegative(if a <= b then d else -d, 1.0 - f);
  }

  lemma MulNonNegative(x: real, y: real)
    requires 0.0 <= x && 0.0 <= y
    ensures 0.0 <= x * y
  {
  }

  /** The point on the segment from `prev` to `next` at time `t` (linear interpolation). */
  function Interpolate(prev: GhostPoint, next: GhostPoint, t: int): (p: GhostPoint)
    ensures p.timeMs == t
    ensures prev.timeMs < next.timeMs && t == next.timeMs ==> p == next
  {
    var fraction := Fraction(prev.timeMs, next.timeMs, t);
    GhostPoint(t, prev.lat + (next.lat - prev.lat) * fraction, prev.lon + (next.lon - prev.lon) * fraction)
  }

  /** Strictly after `prev` and no later than `next`, the position lies between theirs. */
  lemma InterpolateStaysBetween(prev: GhostPoint, next: GhostPoint, t: int)
    requires prev.timeMs < t <= next.timeMs
    ensures var p := Interpolate(prev, next, t);
      Between(p.lat, prev.lat, next.lat) && Between(p.lon, prev.lon, next.lon)
  {
    var fraction := Fraction(prev.timeMs, next.timeMs, t);
    LerpBetween(prev.lat, next.lat, fraction);
    LerpBetween(prev.lon, next.lon, fraction);
  }

  /** Halfway in time between two samples is halfway in space. */
  lemma InterpolateMidpoint(prev: GhostPoint, next: GhostPoint, t: int)
    requires prev.timeMs < next.timeMs && 2 * t == prev.timeMs + next.timeMs
    ensures Interpolate(prev, next, t) == GhostPoint(t, (prev.lat + next.lat) / 2.0, (prev.lon + next.lon) / 2.0)
  {
    FractionHalfway(prev.timeMs, next.timeMs, t);
  }

  /** The `forEachLine` loop of the `init` block. */
  method ReadLines(lines: seq<string>, parse: NumberParser) returns (pts: seq<GhostPoint>)
    ensures pts == ParseLines(lines, parse)
  {
    pts := [];
    var i := 0;
    while i < |lines|
      invariant 0 <= i <= |lines|
      invariant pts == ParseLines(lines[..i], parse)
    {
      var p := ParseLine(lines[i], parse);
      if p.Some? {
        pts := pts + [p.value];
      }
      ParseLinesPrefix(lines, i, parse);
      i := i + 1;
    }
    assert lines[..i] == lines;
  }

  /** The `for` loop of the `init` block that subtracts the start time from every sample. */
  method ShiftStart(s: seq<GhostPoint>, startTime: int) returns (r: seq<GhostPoint>)
    ensures r == ShiftTimes(s, startTime)
  {
    r := s;
    var k := 0;
    while k < |r|
      invariant 0 <= k <= |r| == |s|
      invariant forall j :: 0 <= j < k ==> r[j] == s[j].(timeMs := s[j].timeMs - startTime)
      invariant forall j :: k <= j < |r| ==> r[j] == s[j]
    {
      r := r[k := r[k].(timeMs := r[k].timeMs - startTime)];
      k := k + 1;
    }
  }

  // ---------------------------------------------------------------------------
  // The manager
  // ---------------------------------------------------------------------------

  class GhostManager {
    var points: seq<GhostPoint>

    /** What construction establishes and nothing afterwards changes. */
    ghost predicate Valid()
      reads this
    {
      && SortedByTime(points)
      && (points != [] ==> points[0].timeMs <= 0)
      && (forall i :: 0 <= i < |points| ==> IsLong(points[i].timeMs))
    }

    /** The `init` block: collect the points of the well-formed lines, sort them by time,
        and move a positive start time to zero. */
    constructor (lines: seq<string>, parse: NumberParser)
      ensures points == LoadedPoints(lines, parse)
      ensures Valid()
    {
      var pts := ReadLines(lines, parse);
      if pts != [] {
        pts := SortByTime(pts);
        var startTime := pts[0].timeMs;
        if startTime > 0 {
          pts := ShiftStart(pts, startTime);
        }
      }
      points := pts;
      LoadedPointsFacts(lines, parse);
    }

    /** The stored trajectory itself, which is sorted by time and starts at or before zero. */
    function GetAllPoints(): (r: seq<GhostPoint>)
      reads this
      requires Valid()
      ensures r == points
      ensures SortedByTime(r) && (r != [] ==> r[0].timeMs <= 0)
    {
      points
    }

    /** The position at `currentTimeMs`: clamped to the first and last samples outside
        the recorded range, linearly interpolated inside it, `None` without samples. */
    function GetPositionAtTime(currentTimeMs: int): (r: Option<GhostPoint>)
      reads this
      ensures r.None? <==> points == []
    {
      if points == [] then None
      else
        var index := IndexOfFirst(points, currentTimeMs);
        if index == 0 then Some(points[0])
        else if index == -1 then Some(points[|points| - 1])
        else Some(Interpolate(points[index - 1], points[index], currentTimeMs))
    }
  }

  /** At or before the first sample the first sample itself is returned. */
  lemma PositionBeforeStart(g: GhostManager, t: int)
    requires g.points != [] && t <= g.points[0].timeMs
    ensures g.GetPositionAtTime(t) == Some(g.points[0])
  {}

  /** After the last sample of a sorted trajectory the last sample itself is returned. */
  lemma PositionAfterEnd(g: GhostManager, t: int)
    requires SortedByTime(g.points)
    requires g.points != [] && g.points[|g.points| - 1].timeMs < t
    ensures g.GetPositionAtTime(t) == Some(g.points[|g.points| - 1])
  {
    var n := |g.points|;
    assert forall i :: 0 <= i < n ==> g.points[i].timeMs <= g.points[n - 1].timeMs;
  }

  /** Inside the recorded range the answer interpolates between two neighbours that
      strictly enclose `t` from below, so the zero-gap guard is never taken and the
      fraction lies in (0, 1]. This needs no sortedness. */
  lemma PositionInside(g: GhostManager, t: int)
    requires g.points != []
    requires g.points[0].timeMs < t <= g.points[|g.points| - 1].timeMs
    ensures var k := IndexOfFirst(g.points, t);
      && 0 < k < |g.points|
      && g.points[k - 1].timeMs < t <= g.points[k].timeMs
      && g.points[k - 1].timeMs < g.points[k].timeMs
      && 0.0 < Fraction(g.points[k - 1].timeMs, g.points[k].timeMs, t) <= 1.0
      && g.GetPositionAtTime(t) == Some(Interpolate(g.points[k - 1], g.points[k], t))
  {
    var k := IndexOfFirst(g.points, t);
    assert k != -1 by { assert !(g.points[|g.points| - 1].timeMs < t); }
  }

  /** On a sorted trajectory, a time within the segment between samples `i` and `i + 1`
      is answered by interpolating on that segment. */
  lemma PositionOnSegment(g: GhostManager, i: int, t: int)
    requires SortedByTime(g.points)
    requires 0 <= i && i + 1 < |g.points|
    requires g.points[i].timeMs < t <= g.points[i + 1].timeMs
    ensures g.GetPositionAtTime(t) == Some(Interpolate(g.points[i], g.points[i + 1], t))
  {
    var k := IndexOfFirst(g.points, t);
    assert forall j :: 0 <= j <= i ==> g.points[j].timeMs <= g.points[i].timeMs;
    assert k == i + 1;
  }

  /** Queried exactly at a sample time that is later than its predecessor's, the sample is returned. */
  lemma PositionAtSample(g: GhostManager, i: int)
    requires SortedByTime(g.points)
    requires 0 <= i < |g.points|
    requires i == 0 || g.points[i - 1].timeMs < g.points[i].timeMs
    ensures g.GetPositionAtTime(g.points[i].timeMs) == Some(g.points[i])
  {
    if i > 0 {
      PositionOnSegment(g, i - 1, g.points[i].timeMs);
    }
  }

  /** Three samples one second apart: at 500 ms the answer is halfway between the first two. */
  lemma ThreeSampleExample(g: GhostManager)
    requires g.points == [GhostPoint(0, 25.4975, 51.4460), GhostPoint(1000, 25.4970, 51.4465), GhostPoint(2000, 25.4965, 51.4470)]
    ensures g.GetPositionAtTime(500) == Some(GhostPoint(500, 25.49725, 51.44625))
    ensures g.GetPositionAtTime(-10) == Some(GhostPoint(0, 25.4975, 51.4460))
    ensures g.GetPositionAtTime(5000) == Some(GhostPoint(2000, 25.4965, 51.4470))
  {
    PositionOnSegment(g, 0, 500);
    InterpolateMidpoint(g.points[0], g.points[1], 500);
    PositionAfterEnd(g, 5000);
  }
}
