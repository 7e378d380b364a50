/**
 * FlyWaypointsMission (missions/fly_waypoints.py): climb to 2.5 m, fly the
 * waypoints in order at 5 m and 1 m/s, and end at the point where the mission
 * started. Positions are latitude/longitude pairs in radians.
 */
module FlyWaypoints {
  import opened Common
  import opened MissionContract

  const CRUISE_HEIGHT: real := 5.0
  const CRUISE_SPEED: real := 1.0
  /** Takeoff ends at this height. */
  const TAKEOFF_HEIGHT: real := 2.5
  const TAKEOFF_CLIMB_RATE: real := 0.5
  /** A waypoint closer than this counts as reached. */
  const WAYPOINT_RADIUS: real := 2.5

  /**
   * East and north offsets from `start` to `end`. As written, the differences
   * in radians are multiplied by 111.3 km, the length of one degree.
   */
  function Offsets(start: Coord, end: Coord, m: MathLib): Vec2 {
    Vec2(111.3 * m.cos(start.lat) * (end.lon - start.lon) * 1000.0,
         111.3 * (end.lat - start.lat) * 1000.0)
  }

  /**
   * `calculate_course`: the course from `start` to `end`, clockwise from north.
   * With arctan inside (-pi/2, pi/2) and keeping the sign of its argument, the
   * course lies in [0, 2 pi) and in the quadrant of the target: north-east in
   * (0, pi/2), south-east in (pi/2, pi), south-west in (pi, 3 pi/2), north-west
   * in (3 pi/2, 2 pi); due east is pi/2 and due west 3 pi/2.
   */
  function CalculateCourse(start: Coord, end: Coord, m: MathLib): (course: real)
    ensures var d := Offsets(start, end, m);
            ArctanRange(m) && ArctanSign(m) ==>
              && 0.0 <= course < 2.0 * PI
              && (d.x > 0.0 && d.y > 0.0 ==> 0.0 < course < PI / 2.0)
              && (d.x > 0.0 && d.y == 0.0 ==> course == PI / 2.0)
              && (d.x > 0.0 && d.y < 0.0 ==> PI / 2.0 < course < PI)
              && (d.x < 0.0 && d.y < 0.0 ==> PI < course < 3.0 * PI / 2.0)
              && (d.x < 0.0 && d.y == 0.0 ==> course == 3.0 * PI / 2.0)
              && (d.x < 0.0 && d.y > 0.0 ==> 3.0 * PI / 2.0 < course < 2.0 * PI)
  {
    var d := Offsets(start, end, m);
    if d.x == 0.0 then
      if d.y < 0.0 then PI else 0.0
    else
      var result := m.arctan(d.y / Abs(d.x));
      if d.x < 0.0 then result + 3.0 * PI / 2.0
      else PI / 2.0 - result
  }

  /**
   * The converse of `CalculateCourse`'s quadrants: under the same arctan facts
   * the course tells where the target lies. 0 is due north or the start itself,
   * pi is due south, and every other course names one quadrant or one axis.
   */
  lemma CourseGivesQuadrant(start: Coord, end: Coord, m: MathLib)
    requires ArctanRange(m) && ArctanSign(m)
    ensures var course, d := CalculateCourse(start, end, m), Offsets(start, end, m);
            && (course == 0.0 ==> d.x == 0.0 && d.y >= 0.0)
            && (0.0 < course < PI / 2.0 ==> d.x > 0.0 && d.y > 0.0)
            && (course == PI / 2.0 ==> d.x > 0.0 && d.y == 0.0)
            && (PI / 2.0 < course < PI ==> d.x > 0.0 && d.y < 0.0)
            && (course == PI ==> d.x == 0.0 && d.y < 0.0)
            && (PI < course < 3.0 * PI / 2.0 ==> d.x < 0.0 && d.y < 0.0)
            && (course == 3.0 * PI / 2.0 ==> d.x < 0.0 && d.y == 0.0)
            && (3.0 * PI / 2.0 < course ==> d.x < 0.0 && d.y > 0.0)
  {
    var d := Offsets(start, end, m);
    if d.x != 0.0 {
      var t := d.y / Abs(d.x);
      assert d.y > 0.0 <==> t > 0.0;
      assert d.y < 0.0 <==> t < 0.0;
      var a := m.arctan(t);
      assert -PI / 2.0 < a < PI / 2.0;
    }
  }

  /** `calculate_dist_to_waypoint`: straight-line distance from the current position. */
  function DistanceToWaypoint(position: Coord, waypoint: Coord, m: MathLib): real {
    m.sqrt(Offsets(position, waypoint, m).Norm2())
  }

  /**
   * With a true square root, a waypoint counts as reached exactly when the
   * squared offsets are below the squared radius.
   */
  lemma ReachedWhenClose(position: Coord, waypoint: Coord, m: MathLib)
    requires SquareRoot(m.sqrt)
    ensures var d := Offsets(position, waypoint, m);
            DistanceToWaypoint(position, waypoint, m) < WAYPOINT_RADIUS
            <==> d.x * d.x + d.y * d.y < WAYPOINT_RADIUS * WAYPOINT_RADIUS
  {
    var d := Offsets(position, waypoint, m);
    var q := d.Norm2();
    assert 0.0 <= q by {
      assert d.x * d.x >= 0.0 && d.y * d.y >= 0.0;
    }
    var dist := m.sqrt(q);
    assert dist == DistanceToWaypoint(position, waypoint, m);
    assert 0.0 <= dist && dist * dist == q;
    if dist < WAYPOINT_RADIUS {
      SquareBelow(dist, WAYPOINT_RADIUS);
    } else {
      SquareAtMost(WAYPOINT_RADIUS, dist);
    }
  }

  /** The mission's progress: -1 while taking off, then the index of the waypoint flown to. */
  type StepIndex = s: int | s >= -1 witness -1

  /** What one `loop_run` decides: the new `_step` and the calls it makes. */
  datatype Leg = Leg(step: StepIndex, requests: seq<Request>)

  /**
   * One `loop_run` from step `step` at the sampled position. Takeoff holds 5 m
   * on the current heading and climbs at 0.5 m/s until 2.5 m; each waypoint is
   * flown to at 5 m and 1 m/s (the heading reset to 0 by the default) until it is
   * within 2.5; past the last one a root mission lands and a child stops.
   */
  function WaypointStep(step: StepIndex, waypoints: seq<Coord>, isBaseMission: bool,
                        tel: Telemetry, m: MathLib): (r: Leg)
    ensures r.step == step || r.step == step + 1
    ensures step == -1 ==>
              && |r.requests| >= 1
              && r.requests[0] == SetParameters(Some(CRUISE_HEIGHT), tel.heading, 0.0, 0.0)
              && (r.step == 0 <==> tel.height >= TAKEOFF_HEIGHT)
              && (r.step == -1 ==> r.requests[1..] == [SetAlternativeParameters(Some(TAKEOFF_CLIMB_RATE))])
    ensures 0 <= step < |waypoints| ==>
              && r.requests == [SetParameters(Some(CRUISE_HEIGHT), 0.0,
                                              CalculateCourse(tel.coordinates, waypoints[step], m), CRUISE_SPEED)]
              && (r.step == step + 1 <==> DistanceToWaypoint(tel.coordinates, waypoints[step], m) < WAYPOINT_RADIUS)
    ensures step >= |waypoints| ==>
              && r.step == step
              && r.requests == (if isBaseMission then [StartEmergencyLanding] else [SetParameters(Some(0.0), 0.0, 0.0, 0.0)])
  {
    var position := tel.coordinates;
    if step == -1 then
      var hold := SetParameters(height := Some(CRUISE_HEIGHT), heading := tel.heading, speed := 0.0);
      if tel.height >= TAKEOFF_HEIGHT then Leg(step + 1, [hold])
      else Leg(step, [hold, SetAlternativeParameters(climbRate := Some(TAKEOFF_CLIMB_RATE))])
    else if step < |waypoints| then
      var course := CalculateCourse(position, waypoints[step], m);
      var fly := SetParameters(height := Some(CRUISE_HEIGHT), course := course, speed := CRUISE_SPEED);
      if DistanceToWaypoint(position, waypoints[step], m) < WAYPOINT_RADIUS then Leg(step + 1, [fly])
      else Leg(step, [fly])
    else if isBaseMission then Leg(step, [StartEmergencyLanding])
    else Leg(step, [SetParameters(speed := 0.0)])
  }

  /**
   * Over any run of ticks the step never passes one beyond the last waypoint:
   * it only advances while a waypoint is left to fly to.
   */
  lemma {:induction false} StepStaysInRoute(step: StepIndex, waypoints: seq<Coord>, isBaseMission: bool,
                                            samples: seq<Telemetry>, m: MathLib)
    requires step <= |waypoints|
    ensures step <= Steps(step, waypoints, isBaseMission, samples, m) <= |waypoints|
    decreases |samples|
  {
    if samples != [] {
      var next := WaypointStep(step, waypoints, isBaseMission, samples[0], m).step;
      StepStaysInRoute(next, waypoints, isBaseMission, samples[1..], m);
    }
  }

  /** `_step` after a run of ticks with fixed waypoints. */
  function Steps(step: StepIndex, waypoints: seq<Coord>, isBaseMission: bool,
                 samples: seq<Telemetry>, m: MathLib): StepIndex
    decreases |samples|
  {
    if samples == [] then step
    else Steps(WaypointStep(step, waypoints, isBaseMission, samples[0], m).step,
               waypoints, isBaseMission, samples[1..], m)
  }

  /** `np.loadtxt(file) * np.pi / 180`: the waypoints from degrees to radians. */
  function Radians(degrees: seq<Coord>): (r: seq<Coord>)
    ensures |r| == |degrees|
    ensures forall i :: 0 <= i < |r| ==>
              r[i] == Coord(degrees[i].lat * PI / 180.0, degrees[i].lon * PI / 180.0)
  {
    seq(|degrees|, i requires 0 <= i < |degrees| =>
      Coord(degrees[i].lat * PI / 180.0, degrees[i].lon * PI / 180.0))
  }

  /** Radians back to degrees. */
  function Degrees(radians: seq<Coord>): (r: seq<Coord>)
    ensures |r| == |radians|
  {
    seq(|radians|, i requires 0 <= i < |radians| =>
      Coord(radians[i].lat * 180.0 / PI, radians[i].lon * 180.0 / PI))
  }

  /** The conversion loses nothing: converting back gives the rows of the file. */
  lemma RadiansRoundTrip(degrees: seq<Coord>)
    ensures Degrees(Radians(degrees)) == degrees
  {
    var back := Degrees(Radians(degrees));
    forall i | 0 <= i < |degrees|
      ensures back[i] == degrees[i]
    {
      var d := degrees[i];
      assert Radians(degrees)[i] == Coord(d.lat * PI / 180.0, d.lon * PI / 180.0);
    }
  }

  class FlyWaypointsMission {
    /** numpy. */
    const math: MathLib
    var waypoints: seq<Coord>
    var step: StepIndex
    var position: Coord
    var isBaseMission: bool

    /** `__init__`, given the rows of the waypoint file in degrees. */
    constructor (degrees: seq<Coord>, math: MathLib)
      ensures this.math == math && waypoints == Radians(degrees)
      ensures step == -1 && position == Coord(0.0, 0.0) && !isBaseMission
    {
      this.math := math;
      waypoints := Radians(degrees);
      step := -1;
      position := Coord(0.0, 0.0);
      isBaseMission := false;
    }

    /** `_start`: the starting position becomes one more, final waypoint. */
    method Start(tel: Telemetry)
      modifies this
      ensures position == tel.coordinates
      ensures waypoints == old(waypoints) + [tel.coordinates]
      ensures step == old(step) && isBaseMission == old(isBaseMission)
    {
      position := tel.coordinates;
      waypoints := waypoints + [position];
    }

    /** `start_mission`: root of the flight; arms the motors, then `_start`. */
    method StartMission(tel: Telemetry) returns (reply: Reply)
      modifies this
      ensures reply == Done([Arm]) && isBaseMission
      ensures position == tel.coordinates && waypoints == old(waypoints) + [tel.coordinates]
      ensures step == old(step)
    {
      isBaseMission := true;
      reply := Done([Arm]);
      Start(tel);
    }

    /** `start_as_submission`: a child of another mission; `_start` only. */
    method StartAsSubmission(tel: Telemetry) returns (reply: Reply)
      modifies this
      ensures reply == Done([]) && !isBaseMission
      ensures position == tel.coordinates && waypoints == old(waypoints) + [tel.coordinates]
      ensures step == old(step)
    {
      isBaseMission := false;
      Start(tel);
      reply := Done([]);
    }

    method LoopRun(tel: Telemetry) returns (reply: Reply)
      modifies this
      ensures position == tel.coordinates
      ensures var leg := WaypointStep(old(step), waypoints, isBaseMission, tel, math);
              step == leg.step && reply == Done(leg.requests)
      ensures waypoints == old(waypoints) && isBaseMission == old(isBaseMission)
    {
      position := tel.coordinates;
      if step == -1 {
        var requests := [SetParameters(height := Some(CRUISE_HEIGHT), heading := tel.heading, speed := 0.0)];
        if tel.height >= TAKEOFF_HEIGHT {
          step := step + 1;
        } else {
          requests := requests + [SetAlternativeParameters(climbRate := Some(TAKEOFF_CLIMB_RATE))];
        }
        reply := Done(requests);
      } else if step < |waypoints| {
        var course := CalculateCourse(position, waypoints[step], math);
        reply := Done([SetParameters(height := Some(CRUISE_HEIGHT), course := course, speed := CRUISE_SPEED)]);
        if DistanceToWaypoint(position, waypoints[step], math) < WAYPOINT_RADIUS {
          step := step + 1;
        }
      } else {
        if isBaseMission {
          reply := Done([StartEmergencyLanding]);
        } else {
          reply := Done([SetParameters(speed := 0.0)]);
        }
      }
    }

    method ContinueFromSubmission() returns (reply: Reply)
      ensures reply == Done([])
    {
      reply := Done([]);
    }

    method ContinueFromSubmissionError() returns (reply: Reply)
      ensures reply == Done([])
    {
      reply := Done([]);
    }
  }
}
