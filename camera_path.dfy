/**
 The point generator, the orientation calculator and the path table of the
 circular camera path (main.py, lines 6-41).

 The floating-point library is a parameter: a `MathLib` value carries pi and
 the functions cos, sin, atan2, asin, degrees and sqrt, about which the model
 assumes nothing except, where a lemma needs it, the few facts listed in
 `Sound`. Arithmetic is exact (reals); Python's `round` is modelled exactly.
 */
module CameraPath {
  import opened Wrappers
  import opened PyRound
  import opened Timing
  import opened RealArith

  /** The part of Python's `math` module the script calls. */
  datatype MathLib = MathLib(
    pi: real,
    cos: real -> real,
    sin: real -> real,
    atan2: (real, real) -> real,
    asin: real -> real,
    degrees: real -> real,
    sqrt: real -> real)

  /** Facts of real analysis that the lemmas below rely on. */
  ghost predicate Sound(lib: MathLib) {
    && (forall s: real :: s >= 0.0 ==> lib.sqrt(s) >= 0.0 && Square(lib.sqrt(s)) == s)
    && lib.sqrt(0.0) == 0.0
    && lib.asin(0.0) == 0.0
    && lib.degrees(0.0) == 0.0
  }

  /** The exceptions the script can raise. */
  datatype Error =
    | IndexError         // points[0] on an empty list
    | ZeroDivisionError  // dy / distance with distance 0
    | ValueError         // math.asin of a value outside [-1, 1]: "math domain error"

  /** The centre of the circle, as the caller passes it. */
  datatype Centre = Centre(x: real, y: real, z: real)

  /** A generated point: x and z come out of `round`, y is the centre's y as given. */
  datatype Point = Point(x: int, y: real, z: int)

  /** (yaw, pitch, roll); roll is `round(0, 2)`, the int 0. */
  datatype Orientation = Orientation(yaw: real, pitch: real, roll: int)

  /** One row of the path table: columns X, Y, Z, Yaw, Pitch, Roll, Time. */
  datatype Row = Row(x: int, y: real, z: int, yaw: real, pitch: real, roll: int, time: int)

  // ---------------------------------------------------------------------------
  // Point generator (calculate_circle_points)

  /** Point number i of n on the circle. */
  function CirclePoint(lib: MathLib, c: Centre, radius: real, n: int, i: int): (p: Point)
    requires n > 0
    ensures p.y == c.y
    ensures c.x + radius * lib.cos(2.0 * lib.pi * i as real / n as real) - 0.5 <= p.x as real
    ensures p.x as real <= c.x + radius * lib.cos(2.0 * lib.pi * i as real / n as real) + 0.5
    ensures c.z + radius * lib.sin(2.0 * lib.pi * i as real / n as real) - 0.5 <= p.z as real
    ensures p.z as real <= c.z + radius * lib.sin(2.0 * lib.pi * i as real / n as real) + 0.5
  {
    var angle := 2.0 * lib.pi * i as real / n as real;
    var x, z := c.x + radius * lib.cos(angle), c.z + radius * lib.sin(angle);
    RoundHalfEvenNearest(x);
    RoundHalfEvenNearest(z);
    Point(RoundHalfEven(x), c.y, RoundHalfEven(z))
  }

  /** The point list `calculate_circle_points` returns, or the exception it raises. */
  function CircleSpec(lib: MathLib, c: Centre, radius: real, n: int): (res: Result<seq<Point>, Error>)
    ensures res.Failure? <==> n <= 0
    ensures res.Failure? ==> res.error == IndexError
  {
    if n <= 0 then Failure(IndexError)
    else Success(seq(n, i requires 0 <= i < n => CirclePoint(lib, c, radius, n, i)) + [CirclePoint(lib, c, radius, n, 0)])
  }

  /** The list holds n + 1 points: point i of n at index i, and point 0 again at the end. */
  lemma CirclePointsClosed(lib: MathLib, c: Centre, radius: real, n: int)
    requires n >= 1
    ensures CircleSpec(lib, c, radius, n).Success?
    ensures |CircleSpec(lib, c, radius, n).value| == n + 1
    ensures CircleSpec(lib, c, radius, n).value[n] == CircleSpec(lib, c, radius, n).value[0]
    ensures forall k :: 0 <= k < n ==> CircleSpec(lib, c, radius, n).value[k] == CirclePoint(lib, c, radius, n, k)
    ensures forall k :: 0 <= k <= n ==> CircleSpec(lib, c, radius, n).value[k].y == c.y
  {
  }

  /** calculate_circle_points: one point per angular index, then the first point again. */
  method CirclePoints(lib: MathLib, c: Centre, radius: real, n: int) returns (res: Result<seq<Point>, Error>)
    ensures res == CircleSpec(lib, c, radius, n)
    ensures res.Success? ==> |res.value| == n + 1 && res.value[n] == res.value[0]
  {
    var points: seq<Point> := [];
    var i := 0;
    while i < n
      invariant 0 <= i && (n > 0 ==> i <= n) && (n <= 0 ==> i == 0)
      invariant |points| == i
      invariant forall k :: 0 <= k < i ==> points[k] == CirclePoint(lib, c, radius, n, k)
    {
      points := points + [CirclePoint(lib, c, radius, n, i)];
      i := i + 1;
    }
    if |points| == 0 {
      return Failure(IndexError);
    }
    assert points == seq(n, k requires 0 <= k < n => CirclePoint(lib, c, radius, n, k));
    points := points + [points[0]];
    res := Success(points);
  }

  // ---------------------------------------------------------------------------
  // Orientation calculator (calculate_camera_orientation)

  /** calculate_camera_orientation: the yaw, pitch and roll that turn a camera at (px, py, pz) towards c. */
  function CameraOrientation(lib: MathLib, px: real, py: real, pz: real, c: Centre): (res: Result<Orientation, Error>)
    ensures res.Success? ==> res.value.roll == 0
  {
    OrientAlong(lib, c.x - px, c.y - py, c.z - pz)
  }

  /** The orientation for the camera-to-centre vector (dx, dy, dz). */
  function OrientAlong(lib: MathLib, dx: real, dy: real, dz: real): (res: Result<Orientation, Error>)
    ensures res.Success? ==> res.value.roll == 0
  {
    var distance := lib.sqrt(SquaredLength(dx, dy, dz));
    if distance == 0.0 then Failure(ZeroDivisionError)
    else Aim(lib, dx, dz, dy / distance)
  }

  /** The orientation of the camera at a generated point. */
  function Orient(lib: MathLib, p: Point, c: Centre): (res: Result<Orientation, Error>)
    ensures res.Success? ==> res.value.roll == 0
  {
    CameraOrientation(lib, p.x as real, p.y, p.z as real, c)
  }

  /** Yaw from atan2(dz, dx) and pitch from asin(sine), both in degrees to two places; roll 0. */
  function Aim(lib: MathLib, dx: real, dz: real, sine: real): (res: Result<Orientation, Error>)
    ensures res.Success? <==> -1.0 <= sine <= 1.0
    ensures res.Failure? ==> res.error == ValueError
    ensures res.Success? ==> res.value.roll == 0
  {
    if sine < -1.0 || 1.0 < sine then Failure(ValueError)
    else
      var yaw := Round2(lib.degrees(lib.atan2(dz, dx)) - 90.0);
      var pitch := Round2(lib.degrees(lib.asin(sine)));
      Success(Orientation(yaw, pitch, 0))
  }

  /**
   With a sound square root the distance is 0 exactly for the zero vector,
   and otherwise dy / distance lies in [-1, 1].
   */
  lemma DistanceFacts(lib: MathLib, dx: real, dy: real, dz: real)
    requires Sound(lib)
    ensures lib.sqrt(SquaredLength(dx, dy, dz)) == 0.0 <==> (dx == 0.0 && dy == 0.0 && dz == 0.0)
    ensures lib.sqrt(SquaredLength(dx, dy, dz)) != 0.0 ==> -1.0 <= dy / lib.sqrt(SquaredLength(dx, dy, dz)) <= 1.0
  {
    var s := SquaredLength(dx, dy, dz);
    var distance := lib.sqrt(s);
    SquaredLengthSign(dx, dy, dz);
    assert distance >= 0.0 && Square(distance) == s;
    SquareSign(distance);
    if distance != 0.0 {
      RatioWithinUnit(dy, distance);
    }
  }

  /** With a sound square root the zero vector makes the division by the distance fail. */
  lemma OrientAlongZero(lib: MathLib)
    requires Sound(lib)
    ensures OrientAlong(lib, 0.0, 0.0, 0.0) == Failure(ZeroDivisionError)
  {
    SquaredLengthSign(0.0, 0.0, 0.0);
  }

  /**
   With a sound maths library any other vector gets an orientation: the
   distance is positive and the asin argument lies in [-1, 1].
   */
  lemma OrientAlongNonzero(lib: MathLib, dx: real, dy: real, dz: real)
    requires Sound(lib)
    requires dx != 0.0 || dy != 0.0 || dz != 0.0
    ensures OrientAlong(lib, dx, dy, dz).Success?
  {
    DistanceFacts(lib, dx, dy, dz);
  }

  /** A camera on the centre makes the calculation fail with ZeroDivisionError. */
  lemma OrientAtCentre(lib: MathLib, px: real, py: real, pz: real, c: Centre)
    requires Sound(lib)
    requires px == c.x && py == c.y && pz == c.z
    ensures CameraOrientation(lib, px, py, pz, c) == Failure(ZeroDivisionError)
  {
    assert c.x - px == 0.0 && c.y - py == 0.0 && c.z - pz == 0.0;
    OrientAlongZero(lib);
  }

  /** A camera anywhere else gets an orientation. */
  lemma OrientAwayFromCentre(lib: MathLib, px: real, py: real, pz: real, c: Centre)
    requires Sound(lib)
    requires px != c.x || py != c.y || pz != c.z
    ensures CameraOrientation(lib, px, py, pz, c).Success?
  {
    OrientAlongNonzero(lib, c.x - px, c.y - py, c.z - pz);
  }

  /** The calculation fails exactly when the camera sits on the centre, and then with ZeroDivisionError. */
  lemma OrientFailsIffAtCentre(lib: MathLib, px: real, py: real, pz: real, c: Centre)
    requires Sound(lib)
    ensures CameraOrientation(lib, px, py, pz, c).Failure? <==> (px == c.x && py == c.y && pz == c.z)
    ensures CameraOrientation(lib, px, py, pz, c).Failure? ==> CameraOrientation(lib, px, py, pz, c).error == ZeroDivisionError
  {
    if px == c.x && py == c.y && pz == c.z {
      OrientAtCentre(lib, px, py, pz, c);
    } else {
      OrientAwayFromCentre(lib, px, py, pz, c);
    }
  }

  /** A sine of 0 gives pitch 0. */
  lemma AimLevel(lib: MathLib, dx: real, dz: real)
    requires Sound(lib)
    ensures Aim(lib, dx, dz, 0.0).Success? && Aim(lib, dx, dz, 0.0).value.pitch == 0.0
  {
    Round2Nearest(0.0);
  }

  /** A vector level with the centre, other than zero, gets pitch 0. */
  lemma OrientAlongLevel(lib: MathLib, dx: real, dz: real)
    requires Sound(lib)
    requires dx != 0.0 || dz != 0.0
    ensures OrientAlong(lib, dx, 0.0, dz).Success? && OrientAlong(lib, dx, 0.0, dz).value.pitch == 0.0
  {
    DistanceFacts(lib, dx, 0.0, dz);
    var distance := lib.sqrt(SquaredLength(dx, 0.0, dz));
    assert 0.0 / distance == 0.0;
    AimLevel(lib, dx, dz);
  }

  /** A camera level with the centre and away from it gets pitch 0 and roll 0. */
  lemma PitchZeroOnPlane(lib: MathLib, px: real, py: real, pz: real, c: Centre)
    requires Sound(lib)
    requires py == c.y && (px != c.x || pz != c.z)
    ensures CameraOrientation(lib, px, py, pz, c).Success?
    ensures CameraOrientation(lib, px, py, pz, c).value.pitch == 0.0 && CameraOrientation(lib, px, py, pz, c).value.roll == 0
  {
    assert c.y - py == 0.0;
    OrientAlongLevel(lib, c.x - px, c.z - pz);
  }

  // ---------------------------------------------------------------------------
  // Path table (create_camera_path_dataframe)

  /** The row the script builds for point p, its orientation o and its time. */
  function MakeRow(p: Point, o: Orientation, time: int): Row {
    Row(p.x, p.y, p.z, o.yaw, o.pitch, o.roll, time)
  }

  /** calculate_camera_orientation with the maths library and the centre fixed. */
  function Calculator(lib: MathLib, c: Centre): Point -> Result<Orientation, Error>
  {
    p => Orient(lib, p, c)
  }

  /**
   The rows built for the points, in order, or the first exception the
   orientation calculator orient raises along the way.
   */
  function TableRows(orient: Point -> Result<Orientation, Error>, n: int, millisec: int, pts: seq<Point>): (res: Result<seq<Row>, Error>)
    requires n > 0
    decreases |pts|
    ensures res.Success? <==> forall k :: 0 <= k < |pts| ==> orient(pts[k]).Success?
    ensures res.Success? ==> |res.value| == |pts|
    ensures res.Success? ==> forall k :: 0 <= k < |pts| ==>
      res.value[k] == MakeRow(pts[k], orient(pts[k]).value, RowTime(k, n, millisec))
  {
    if pts == [] then Success([])
    else
      var last := |pts| - 1;
      match TableRows(orient, n, millisec, pts[..last])
      case Failure(e) => Failure(e)
      case Success(rows) =>
        match orient(pts[last])
        case Failure(e) => Failure(e)
        case Success(o) => Success(rows + [MakeRow(pts[last], o, RowTime(last, n, millisec))])
  }

  /** Once a prefix has produced its rows, a failing next point decides the outcome of the whole table. */
  lemma {:induction false} TableRowsFailsAt(orient: Point -> Result<Orientation, Error>, n: int, millisec: int, pts: seq<Point>, i: int, rows: seq<Row>)
    requires n > 0 && 0 <= i < |pts|
    requires TableRows(orient, n, millisec, pts[..i]) == Success(rows)
    requires orient(pts[i]).Failure?
    ensures TableRows(orient, n, millisec, pts) == Failure(orient(pts[i]).error)
    decreases |pts| - i
  {
    if i == |pts| - 1 {
      assert pts[..|pts| - 1] == pts[..i];
    } else {
      var shorter := pts[..|pts| - 1];
      assert shorter[..i] == pts[..i];
      TableRowsFailsAt(orient, n, millisec, shorter, i, rows);
    }
  }

  /** A prefix that has produced its rows, followed by a point whose orientation succeeds, gains that point's row. */
  lemma TableRowsExtend(orient: Point -> Result<Orientation, Error>, n: int, millisec: int, pts: seq<Point>, i: int, rows: seq<Row>)
    requires n > 0 && 0 <= i < |pts|
    requires TableRows(orient, n, millisec, pts[..i]) == Success(rows)
    requires orient(pts[i]).Success?
    ensures TableRows(orient, n, millisec, pts[..i + 1]) ==
      Success(rows + [MakeRow(pts[i], orient(pts[i]).value, RowTime(i, n, millisec))])
  {
    assert pts[..i + 1][..i] == pts[..i];
  }

  /** The table `create_camera_path_dataframe` returns, or the exception it raises. */
  function PathSpec(lib: MathLib, c: Centre, radius: real, n: int, millisec: int): (res: Result<seq<Row>, Error>)
    ensures n <= 0 ==> res == Failure(IndexError)
  {
    match CircleSpec(lib, c, radius, n)
    case Failure(e) => Failure(e)
    case Success(pts) => TableRows(Calculator(lib, c), n, millisec, pts)
  }

  /** create_camera_path_dataframe: one row per point, appended in order. */
  method CameraPathTable(lib: MathLib, c: Centre, radius: real, n: int, millisec: int) returns (res: Result<seq<Row>, Error>)
    ensures res == PathSpec(lib, c, radius, n, millisec)
  {
    var pr := CirclePoints(lib, c, radius, n);
    if pr.Failure? {
      return Failure(pr.error);
    }
    var points := pr.value;
    var data: seq<Row> := [];
    var i := 0;
    while i < |points|
      invariant 0 <= i <= |points|
      invariant TableRows(Calculator(lib, c), n, millisec, points[..i]) == Success(data)
    {
      var o := Orient(lib, points[i], c);
      if o.Failure? {
        TableRowsFailsAt(Calculator(lib, c), n, millisec, points, i, data);
        return Failure(o.error);
      }
      TableRowsExtend(Calculator(lib, c), n, millisec, points, i, data);
      data := data + [MakeRow(points[i], o.value, RowTime(i, n, millisec))];
      i := i + 1;
    }
    assert points[..i] == points;
    res := Success(data);
  }

  /**
   With a sound maths library the table exists exactly when n >= 1 and no
   generated point lands on the centre; it then has n + 1 rows, starts at
   time 0, ends at time millisec, has pitch and roll 0 throughout and
   carries each point's coordinates in order.
   */
  lemma PathTableShape(lib: MathLib, c: Centre, radius: real, n: int, millisec: int)
    requires Sound(lib)
    ensures PathSpec(lib, c, radius, n, millisec).Success? <==>
      n >= 1 && forall k :: 0 <= k < n ==>
        CirclePoint(lib, c, radius, n, k).x as real != c.x || CirclePoint(lib, c, radius, n, k).z as real != c.z
    ensures PathSpec(lib, c, radius, n, millisec).Success? ==>
      var rows := PathSpec(lib, c, radius, n, millisec).value;
      && |rows| == n + 1
      && rows[0].time == 0
      && rows[n].time == millisec
      && (forall k :: 0 <= k <= n ==> rows[k].pitch == 0.0 && rows[k].roll == 0 && rows[k].y == c.y)
      && (forall k :: 0 <= k < n ==>
            rows[k].x == CirclePoint(lib, c, radius, n, k).x && rows[k].z == CirclePoint(lib, c, radius, n, k).z)
      && rows[n].x == rows[0].x && rows[n].z == rows[0].z
  {
    if n >= 1 {
      CirclePointsClosed(lib, c, radius, n);
      var pts := CircleSpec(lib, c, radius, n).value;
      forall k | 0 <= k <= n
        ensures Orient(lib, pts[k], c).Success? <==> (pts[k].x as real != c.x || pts[k].z as real != c.z)
        ensures Orient(lib, pts[k], c).Success? ==> Orient(lib, pts[k], c).value.pitch == 0.0
      {
        OrientFailsIffAtCentre(lib, pts[k].x as real, pts[k].y, pts[k].z as real, c);
        if pts[k].x as real != c.x || pts[k].z as real != c.z {
          PitchZeroOnPlane(lib, pts[k].x as real, pts[k].y, pts[k].z as real, c);
        }
      }
      if PathSpec(lib, c, radius, n, millisec).Success? {
        RowTimeAtStart(n, millisec);
        RowTimeAtEnd(n, millisec);
      }
    }
  }

  /** For a non-negative duration the Time column is non-decreasing. */
  lemma PathTimesNondecreasing(lib: MathLib, c: Centre, radius: real, n: int, millisec: int, i: int, j: int)
    requires millisec >= 0
    requires PathSpec(lib, c, radius, n, millisec).Success?
    requires 0 <= i <= j < |PathSpec(lib, c, radius, n, millisec).value|
    ensures PathSpec(lib, c, radius, n, millisec).value[i].time <= PathSpec(lib, c, radius, n, millisec).value[j].time
  {
    RowTimeMonotone(i, j, n, millisec);
  }
}
