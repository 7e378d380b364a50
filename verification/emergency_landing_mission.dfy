/**
 * EmergencyLandingMission (missions/emergency_landing_mission.py): lands where
 * the copter is. Above 0.5 m it descends at a rate chosen by height; at or below
 * 0.5 m it remembers when it first got there (`_low_time`, from the wall clock)
 * and ends the flight once 4 s have passed since.
 */
module EmergencyLanding {
  import opened Common
  import opened MissionContract

  /** At or below this height the copter counts as landed. */
  const LANDED_HEIGHT: real := 0.5
  /** Seconds on the ground before the flight ends. */
  const LANDED_WAIT: real := 4.0

  /** The climb rate asked for above `LANDED_HEIGHT`: slower near the ground. */
  function DescentRate(height: real): (rate: real)
    requires height > LANDED_HEIGHT
    ensures rate < 0.0
    ensures height <= 10.0 ==> rate == -0.2
    ensures 10.0 < height <= 20.0 ==> rate == -0.3
    ensures 20.0 < height ==> rate == -0.6
  {
    if height <= 10.0 then -0.2
    else if height <= 20.0 then -0.3
    else -0.6
  }

  /** The descent never gets less steep as the height grows. */
  lemma DescentSteeperHigher(low: real, high: real)
    requires LANDED_HEIGHT < low <= high
    ensures DescentRate(high) <= DescentRate(low)
  {
  }

  /** What one `loop_run` decides: the new `_low_time` and the calls it makes. */
  datatype Landing = Landing(lowTime: real, requests: seq<Request>)

  /**
   * One `loop_run` from the current `_low_time`, height and wall-clock time. A
   * `_low_time` of 0 means "not yet on the ground".
   */
  function LandingStep(lowTime: real, height: real, wallClock: real): (r: Landing)
    ensures lowTime != 0.0 ==> r.lowTime == lowTime
    ensures height > LANDED_HEIGHT ==>
              r.lowTime == lowTime && r.requests == [SetAlternativeParameters(Some(DescentRate(height)))]
    ensures height <= LANDED_HEIGHT && lowTime == 0.0 ==> r.lowTime == wallClock && r.requests == []
    ensures FlightFinished in r.requests <==>
              height <= LANDED_HEIGHT && lowTime != 0.0 && wallClock - lowTime >= LANDED_WAIT
    ensures forall q :: q in r.requests ==> q.SetAlternativeParameters? || q.FlightFinished?
  {
    if height <= LANDED_HEIGHT then
      if lowTime == 0.0 then Landing(wallClock, [])
      else if wallClock - lowTime >= LANDED_WAIT then Landing(lowTime, [FlightFinished])
      else Landing(lowTime, [])
    else Landing(lowTime, [SetAlternativeParameters(Some(DescentRate(height)))])
  }

  /**
   * Once `_low_time` is set it stays set over any number of ticks, whatever the
   * heights, so a bounce back above 0.5 m does not restart the 4 s wait.
   */
  lemma {:induction false} LowTimeLatched(lowTime: real, heights: seq<real>, clocks: seq<real>)
    requires lowTime != 0.0 && |heights| == |clocks|
    ensures Landings(lowTime, heights, clocks) == lowTime
    decreases |heights|
  {
    if heights != [] {
      LowTimeLatched(LandingStep(lowTime, heights[0], clocks[0]).lowTime, heights[1..], clocks[1..]);
    }
  }

  /** `_low_time` after a run of ticks with the given heights and wall-clock times. */
  function Landings(lowTime: real, heights: seq<real>, clocks: seq<real>): real
    requires |heights| == |clocks|
    decreases |heights|
  {
    if heights == [] then lowTime
    else Landings(LandingStep(lowTime, heights[0], clocks[0]).lowTime, heights[1..], clocks[1..])
  }

  /** The mission never pushes a sub-mission and never reports itself finished. */
  lemma NeverLeavesTheStack(lowTime: real, height: real, wallClock: real)
    ensures StartEmergencyLanding !in LandingStep(lowTime, height, wallClock).requests
  {
  }

  class EmergencyLandingMission {
    /** When the copter was first seen at or below 0.5 m; 0 until then. */
    var lowTime: real

    constructor ()
      ensures lowTime == 0.0
    {
      lowTime := 0.0;
    }

    /**
     * `start_mission`: `set_parameters(speed=0)`, which with the defaults of
     * `set_parameters` asks for height 0, heading 0, course 0 and speed 0.
     */
    method StartMission() returns (reply: Reply)
      ensures reply == Done([SetParameters(Some(0.0), 0.0, 0.0, 0.0)])
    {
      reply := Done([SetParameters(speed := 0.0)]);
    }

    method StartAsSubmission() returns (reply: Reply)
      ensures reply == Done([SetParameters(Some(0.0), 0.0, 0.0, 0.0)])
    {
      reply := StartMission();
    }

    method LoopRun(tel: Telemetry) returns (reply: Reply)
      modifies this
      ensures var step := LandingStep(old(lowTime), tel.height, tel.wallClock);
              lowTime == step.lowTime && reply == Done(step.requests)
    {
      var height := tel.height;
      reply := Done([]);
      if height <= LANDED_HEIGHT {
        if lowTime == 0.0 {
          lowTime := tel.wallClock;
        } else if tel.wallClock - lowTime >= LANDED_WAIT {
          reply := Done([FlightFinished]);
        }
      } else if height <= 10.0 {
        reply := Done([SetAlternativeParameters(climbRate := Some(-0.2))]);
      } else if height <= 20.0 {
        reply := Done([SetAlternativeParameters(climbRate := Some(-0.3))]);
      } else {
        reply := Done([SetAlternativeParameters(climbRate := Some(-0.6))]);
      }
    }

    method ContinueFromSubmission() returns (reply: Reply)
      ensures reply == Done([SetParameters(Some(0.0), 0.0, 0.0, 0.0)])
    {
      reply := StartMission();
    }

    method ContinueFromSubmissionError() returns (reply: Reply)
      ensures reply == Done([SetParameters(Some(0.0), 0.0, 0.0, 0.0)])
    {
      reply := StartMission();
    }
  }
}
