/** The per-track speed estimator: a store holding, for every track id, the
    centre and frame of its last sighting, and a finite-difference speed in
    km/h computed against that sighting. */
module SpeedEstimate {
  import opened Boxes

  /** The stored sighting of one track: centre (cx, cy) and frame index. */
  datatype Position = Position(cx: real, cy: real, frame: int)

  /** What `estimate_speed` produces: a speed in km/h, or the
      ZeroDivisionError Python raises when ppm or fps is zero. */
  datatype SpeedResult = Kmh(kmh: real) | ZeroDivisionError

  /** The mathematical contract of `math.sqrt` on the values it is given. */
  ghost predicate IsSqrt(sqrt: real -> real) {
    forall x: real :: x >= 0.0 ==> sqrt(x) >= 0.0 && sqrt(x) * sqrt(x) == x
  }

  /** Centre of a box; Python's `/` on integers is true division. */
  function CenterX(b: Box): real { (b.x1 + b.x2) as real / 2.0 }
  function CenterY(b: Box): real { (b.y1 + b.y2) as real / 2.0 }

  /** Squared pixel distance between the centre of `b` and a stored sighting. */
  function SquaredShift(b: Box, p: Position): (d: real)
    ensures d >= 0.0
  {
    SquareNonNeg(CenterX(b) - p.cx);
    SquareNonNeg(CenterY(b) - p.cy);
    (CenterX(b) - p.cx) * (CenterX(b) - p.cx) + (CenterY(b) - p.cy) * (CenterY(b) - p.cy)
  }

  lemma SquareNonNeg(x: real)
    ensures x * x >= 0.0
  {
    if x < 0.0 {
      assert x * x == (-x) * (-x);
    }
  }

  /** The speed `estimate_speed` returns for a sighting of `id` at `frame`,
      given the store before the call. */
  function SpeedFrom(ppm: real, fps: int, sqrt: real -> real,
                     prev: map<int, Position>, id: int, b: Box, frame: int): SpeedResult
  {
    if id !in prev then Kmh(0.0)
    else
      var p := prev[id];
      var frameDiff := frame - p.frame;
      if frameDiff <= 0 then Kmh(0.0)
      else if ppm == 0.0 || fps == 0 then ZeroDivisionError
      else
        var distPixels := sqrt(SquaredShift(b, p));
        var distMeters := distPixels / ppm;
        var timeSec := frameDiff as real / fps as real;
        Kmh(distMeters / timeSec * 3.6)
  }

  /** The store after a sighting: the entry of `id` is overwritten. */
  function Recorded(prev: map<int, Position>, id: int, b: Box, frame: int): map<int, Position> {
    prev[id := Position(CenterX(b), CenterY(b), frame)]
  }

  class SpeedEstimator {
    /** Pixels per metre and frames per second, fixed at construction. */
    const ppm: real
    const fps: int
    /** `math.sqrt`, supplied from outside. */
    const sqrt: real -> real
    /** Last sighting of every track seen so far. */
    var prevPositions: map<int, Position>

    /** `SpeedEstimator(ppm=10, fps=30)`: the defaults apply to whatever is
        not passed. */
    constructor (sqrt: real -> real, ppm: real := 10.0, fps: int := 30)
      ensures this.ppm == ppm && this.fps == fps && this.sqrt == sqrt
      ensures prevPositions == map[]
    {
      this.ppm := ppm;
      this.fps := fps;
      this.sqrt := sqrt;
      prevPositions := map[];
    }

    /** `estimate_speed`: the speed against the previous sighting; then the
        sighting is recorded whatever its frame index. A ZeroDivisionError
        leaves the store as it was. */
    method EstimateSpeed(objectId: int, bbox: Box, frameCount: int) returns (r: SpeedResult)
      modifies this
      ensures r == SpeedFrom(ppm, fps, sqrt, old(prevPositions), objectId, bbox, frameCount)
      ensures r.Kmh? ==> prevPositions == old(prevPositions)[objectId := Position(CenterX(bbox), CenterY(bbox), frameCount)]
      ensures r.ZeroDivisionError? ==> prevPositions == old(prevPositions)
    {
      var cx, cy := (bbox.x1 + bbox.x2) as real / 2.0, (bbox.y1 + bbox.y2) as real / 2.0;
      var speedKmh: real;
      if objectId in prevPositions {
        var prev := prevPositions[objectId];
        var frameDiff := frameCount - prev.frame;
        if frameDiff > 0 {
          if ppm == 0.0 || fps == 0 {
            return ZeroDivisionError;
          }
          assert (cx - prev.cx) * (cx - prev.cx) + (cy - prev.cy) * (cy - prev.cy) == SquaredShift(bbox, prev);
          var distPixels := sqrt((cx - prev.cx) * (cx - prev.cx) + (cy - prev.cy) * (cy - prev.cy));
          var distMeters := distPixels / ppm;
          var timeSec := frameDiff as real / fps as real;
          var speedMs := distMeters / timeSec;
          speedKmh := speedMs * 3.6;
        } else {
          speedKmh := 0.0;
        }
      } else {
        speedKmh := 0.0;
      }
      prevPositions := prevPositions[objectId := Position(cx, cy, frameCount)];
      r := Kmh(speedKmh);
    }
  }

  /** A track seen for the first time has speed exactly 0. */
  lemma FirstSightingIsZero(ppm: real, fps: int, sqrt: real -> real,
                            prev: map<int, Position>, id: int, b: Box, frame: int)
    requires id !in prev
    ensures SpeedFrom(ppm, fps, sqrt, prev, id, b, frame) == Kmh(0.0)
  {
  }

  /** A sighting at the same or an earlier frame than the stored one has speed 0. */
  lemma StaleFrameIsZero(ppm: real, fps: int, sqrt: real -> real,
                         prev: map<int, Position>, id: int, b: Box, frame: int)
    requires id in prev && frame - prev[id].frame <= 0
    ensures SpeedFrom(ppm, fps, sqrt, prev, id, b, frame) == Kmh(0.0)
  {
  }

  /** The only failure is a division by a zero ppm or fps, and it needs a
      strictly later frame of a known track. */
  lemma ZeroDivisionExactly(ppm: real, fps: int, sqrt: real -> real,
                            prev: map<int, Position>, id: int, b: Box, frame: int)
    ensures SpeedFrom(ppm, fps, sqrt, prev, id, b, frame).ZeroDivisionError?
        <==> id in prev && frame > prev[id].frame && (ppm == 0.0 || fps == 0)
  {
  }

  /** With a strictly later frame, the speed is the pixel distance converted to
      metres, over the frame gap converted to seconds, times 3.6. */
  lemma SpeedFormula(ppm: real, fps: int, sqrt: real -> real,
                     prev: map<int, Position>, id: int, b: Box, frame: int)
    requires id in prev && frame > prev[id].frame && ppm != 0.0 && fps != 0
    ensures SpeedFrom(ppm, fps, sqrt, prev, id, b, frame)
         == Kmh((sqrt(SquaredShift(b, prev[id])) / ppm) / ((frame - prev[id].frame) as real / fps as real) * 3.6)
  {
  }

  /** The speed is never negative when ppm and fps are positive. */
  lemma SpeedNonNegative(ppm: real, fps: int, sqrt: real -> real,
                         prev: map<int, Position>, id: int, b: Box, frame: int)
    requires IsSqrt(sqrt) && ppm > 0.0 && fps > 0
    ensures SpeedFrom(ppm, fps, sqrt, prev, id, b, frame).Kmh?
    ensures SpeedFrom(ppm, fps, sqrt, prev, id, b, frame).kmh >= 0.0
  {
    if id in prev && frame > prev[id].frame {
      var s := sqrt(SquaredShift(b, prev[id]));
      assert s >= 0.0;
      var t := (frame - prev[id].frame) as real / fps as real;
      assert t > 0.0;
      assert s / ppm >= 0.0;
      assert (s / ppm) / t >= 0.0;
    }
  }

  /** An independent reading of the estimate: travelling at the returned speed
      for the elapsed time covers exactly the Euclidean distance between the
      two centres, once pixels are converted to metres. */
  lemma SpeedCoversDisplacement(ppm: real, fps: int, sqrt: real -> real,
                                prev: map<int, Position>, id: int, b: Box, frame: int)
    requires IsSqrt(sqrt) && ppm > 0.0 && fps > 0
    requires id in prev && frame > prev[id].frame
    ensures var v := SpeedFrom(ppm, fps, sqrt, prev, id, b, frame).kmh;
            var metres := v / 3.6 * ((frame - prev[id].frame) as real / fps as real);
            metres >= 0.0 && (metres * ppm) * (metres * ppm) == SquaredShift(b, prev[id])
  {
    var d := SquaredShift(b, prev[id]);
    var s := sqrt(d);
    assert s >= 0.0 && s * s == d;
    var t := (frame - prev[id].frame) as real / fps as real;
    assert t > 0.0;
    var v := (s / ppm) / t * 3.6;
    assert SpeedFrom(ppm, fps, sqrt, prev, id, b, frame).kmh == v;
    var metres := v / 3.6 * t;
    assert metres == s / ppm;
    assert metres * ppm == s;
  }

  /** With a strictly later frame and positive ppm and fps, the speed is zero
      exactly when the centre has not moved. */
  lemma ZeroSpeedIffStationary(ppm: real, fps: int, sqrt: real -> real,
                               prev: map<int, Position>, id: int, b: Box, frame: int)
    requires IsSqrt(sqrt) && ppm > 0.0 && fps > 0
    requires id in prev && frame > prev[id].frame
    ensures SpeedFrom(ppm, fps, sqrt, prev, id, b, frame) == Kmh(0.0)
        <==> CenterX(b) == prev[id].cx && CenterY(b) == prev[id].cy
  {
    var p := prev[id];
    var d := SquaredShift(b, p);
    var s := sqrt(d);
    assert s >= 0.0 && s * s == d;
    var t := (frame - p.frame) as real / fps as real;
    assert t > 0.0;
    var v := (s / ppm) / t * 3.6;
    assert SpeedFrom(ppm, fps, sqrt, prev, id, b, frame) == Kmh(v);
    assert v == 0.0 <==> s == 0.0;
    if d == 0.0 {
      SquareZero(s);
    }
    var dx, dy := CenterX(b) - p.cx, CenterY(b) - p.cy;
    assert d == dx * dx + dy * dy;
    assert dx * dx >= 0.0 && dy * dy >= 0.0;
    if d == 0.0 {
      SquareZero(dx);
      SquareZero(dy);
    }
  }

  lemma SquareZero(x: real)
    requires x * x == 0.0
    ensures x == 0.0
  {
    if x < 0.0 {
      assert (-x) * (-x) == x * x;
      ProductZero(-x, -x);
    } else if x > 0.0 {
      ProductZero(x, x);
    }
  }

  lemma ProductZero(a: real, b: real)
    requires a * b == 0.0 && b > 0.0
    ensures a == 0.0
  {
  }

  /** Every call leaves the new sighting in the store and every other entry as it was. */
  lemma RecordedOverwrites(prev: map<int, Position>, id: int, b: Box, frame: int)
    ensures Recorded(prev, id, b, frame).Keys == prev.Keys + {id}
    ensures Recorded(prev, id, b, frame)[id] == Position(CenterX(b), CenterY(b), frame)
    ensures forall k :: k in prev && k != id ==> Recorded(prev, id, b, frame)[k] == prev[k]
  {
  }

  /** Track 7, observed with centre (100, 100) at frame 10 and centre
      (100, 160) at frame 15, ppm 10 and fps 30: 60 px is 6 m in 1/6 s, so
      129.6 km/h. A later sighting at frame 12 has speed 0 and moves the
      stored frame back to 12, because the store is overwritten on every call. */
  lemma CarScenario(sqrt: real -> real)
    requires IsSqrt(sqrt)
    ensures var first, second, back := Box(90, 90, 110, 110), Box(90, 150, 110, 170), Box(90, 150, 110, 170);
            var s0: map<int, Position> := map[];
            var s1 := Recorded(s0, 7, first, 10);
            var s2 := Recorded(s1, 7, second, 15);
            && SpeedFrom(10.0, 30, sqrt, s0, 7, first, 10) == Kmh(0.0)
            && SpeedFrom(10.0, 30, sqrt, s1, 7, second, 15) == Kmh(129.6)
            && SpeedFrom(10.0, 30, sqrt, s2, 7, back, 12) == Kmh(0.0)
            && Recorded(s2, 7, back, 12)[7] == Position(100.0, 160.0, 12)
  {
    var first, second := Box(90, 90, 110, 110), Box(90, 150, 110, 170);
    var s1 := Recorded(map[], 7, first, 10);
    assert s1[7] == Position(100.0, 100.0, 10);
    assert SquaredShift(second, s1[7]) == 3600.0;
    var s := sqrt(3600.0);
    assert s >= 0.0 && s * s == 3600.0;
    assert (s - 60.0) * (s + 60.0) == 0.0;
    ProductZero(s - 60.0, s + 60.0);
    assert (60.0 / 10.0) / (5.0 / 30.0) * 3.6 == 129.6;
  }
}
