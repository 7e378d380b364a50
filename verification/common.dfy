/**
 * Values shared by every component of the flight software: optional values,
 * the exceptions the Python code raises, telemetry samples (the getters of the
 * copter module, which is not part of this model), setpoints, 2-D vectors and
 * numpy's pi, and the rest of the numeric library (sin, cos, arctan, sqrt) as
 * abstract functions.
 */
module Common {

  datatype Option<+T> = None | Some(value: T)

  /** Why `flight_commands.init` raised its TimeoutError. */
  datatype TimeoutCause = NoReadyLine | GyroNotRecognized | NoStartingLine

  /** The exceptions the core raises, as values. */
  datatype Error =
    | TypeError                     // `_append_mission` given something that is not a Mission
    | ValueError                    // HopInPlaceMission constructor arguments out of range
    | OverflowError                 // `int.to_bytes(1, "big")` of a value outside 0..255
    | TimeoutError(cause: TimeoutCause)
    | MissionException              // a mission refusing a lifecycle call (plain `Exception`)

  datatype Outcome = Ok | Raised(error: Error)

  /** A constructor's result: the new object, or the exception it raised. */
  datatype Result<+T> = Success(value: T) | Failure(error: Error)

  /** A latitude/longitude pair in radians. */
  datatype Coord = Coord(lat: real, lon: real)

  /**
   * One sensor refresh of the copter: `time` is `copter.get_time()` (seconds since
   * initialisation), `wallClock` is `time.time()`, heading and track in radians.
   */
  datatype Telemetry = Telemetry(
    time: real,
    wallClock: real,
    height: real,
    climbRate: real,
    heading: real,
    track: real,
    speed: real,
    coordinates: Coord)

  /**
   * The setpoint globals of main.py: `_height`, `_climb_rate`, `_heading`,
   * `_course`, `_speed`. Python's None is `None` here.
   */
  datatype Setpoints = Setpoints(
    height: Option<real>,
    climbRate: Option<real>,
    heading: real,
    course: real,
    speed: real)

  /** A pair of reals, as numpy arrays of length 2 are used by the controller. */
  datatype Vec2 = Vec2(x: real, y: real) {
    function Plus(o: Vec2): Vec2 { Vec2(x + o.x, y + o.y) }
    function Minus(o: Vec2): Vec2 { Vec2(x - o.x, y - o.y) }
    function Times(k: real): Vec2 { Vec2(x * k, y * k) }
    /** The squared Euclidean magnitude. */
    function Norm2(): real { x * x + y * y }
  }

  /** `np.pi`, to the precision of the double it denotes. */
  const PI: real := 3.141592653589793

  /**
   * The numeric functions the source takes from numpy, as function values; only
   * the range facts in `Sound` are known about them.
   */
  datatype MathLib = MathLib(
    sin: real -> real,
    cos: real -> real,
    arctan: real -> real,
    sqrt: real -> real)

  /** sin and cos lie on the unit circle. */
  ghost predicate UnitCircle(m: MathLib) {
    forall a :: m.sin(a) * m.sin(a) + m.cos(a) * m.cos(a) == 1.0
  }

  /** arctan maps into the open interval (-pi/2, pi/2). */
  ghost predicate ArctanRange(m: MathLib) {
    forall a :: -PI / 2.0 < m.arctan(a) < PI / 2.0
  }

  /** arctan keeps the sign of its argument and maps 0 to 0. */
  ghost predicate ArctanSign(m: MathLib) {
    forall a :: (a > 0.0 ==> m.arctan(a) > 0.0) && (a < 0.0 ==> m.arctan(a) < 0.0) && (a == 0.0 ==> m.arctan(a) == 0.0)
  }

  /** sqrt is the non-negative square root on non-negative arguments. */
  ghost predicate SquareRoot(sqrt: real -> real) {
    forall q :: 0.0 <= q ==> 0.0 <= sqrt(q) && sqrt(q) * sqrt(q) == q
  }

  ghost predicate Sound(m: MathLib) {
    UnitCircle(m) && ArctanRange(m) && SquareRoot(m.sqrt)
  }

  /** The product of two positive reals is positive. */
  lemma PositiveProduct(a: real, b: real)
    requires a > 0.0 && b > 0.0
    ensures a * b > 0.0
  {
  }

  /** For non-negative reals, x < y gives x * x < y * y. */
  lemma SquareBelow(x: real, y: real)
    requires 0.0 <= x < y
    ensures x * x < y * y
  {
    PositiveProduct(y - x, y + x);
    assert (y - x) * (y + x) == y * y - x * x;
  }

  /** For non-negative reals, x <= y gives x * x <= y * y. */
  lemma SquareAtMost(x: real, y: real)
    requires 0.0 <= x <= y
    ensures x * x <= y * y
  {
    if x < y {
      SquareBelow(x, y);
    }
  }

  function Abs(x: real): real { if x < 0.0 then -x else x }

  /** numpy's `sign`. */
  function Sign(x: real): real { if x < 0.0 then -1.0 else if x > 0.0 then 1.0 else 0.0 }
}
