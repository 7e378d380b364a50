/**
 * HopInPlaceMission (missions/hop_in_place.py): take off at a fixed climb rate,
 * switch to holding the target height when close enough to brake, wait there,
 * then hand over to an emergency landing. It can only be the root mission.
 */
module HopInPlace {
  import opened Common
  import opened MissionContract

  const GRAVITY: real := 9.81

  /** The constructor's argument check. */
  predicate ValidParameters(targetHeight: real, waitTime: real, climbRate: real, epsilon: real) {
    targetHeight > 0.0 && waitTime >= 0.0 && climbRate > 0.0 && epsilon > 0.0
  }

  /**
   * `_dh`: the height, with a 30 % margin, the copter needs to stop from the
   * climb rate at 1 g; from this far below the target it flies in height mode.
   */
  function BrakingHeight(climbRate: real): (dh: real)
    ensures dh >= 0.0
  {
    1.3 * (climbRate * climbRate) / (2.0 * GRAVITY)
  }

  /** What one `loop_run` decides: the new `_reached_time` and the calls it makes. */
  datatype Hop = Hop(reachedTime: real, requests: seq<Request>)

  /**
   * One `loop_run` at the given height and time. A `_reached_time` of 0 means
   * "target not yet reached".
   */
  function HopStep(targetHeight: real, waitTime: real, epsilon: real, dh: real,
                   reachedTime: real, height: real, time: real): (r: Hop)
    ensures reachedTime != 0.0 ==> r.reachedTime == reachedTime
    ensures reachedTime == 0.0 ==>
              r.reachedTime == (if Abs(targetHeight - height) < epsilon then time else 0.0)
    ensures targetHeight - height <= dh ==>
              |r.requests| > 0 && r.requests[0] == SetParameters(height := Some(targetHeight))
    ensures targetHeight - height > dh && !(reachedTime == 0.0 && Abs(targetHeight - height) < epsilon) ==>
              SetParameters(height := Some(targetHeight)) !in r.requests
    ensures reachedTime == 0.0 && Abs(targetHeight - height) < epsilon ==>
              |r.requests| > 0 && r.requests[|r.requests| - 1] == SetParameters(height := Some(targetHeight))
    ensures StartEmergencyLanding in r.requests <==> reachedTime != 0.0 && time - reachedTime >= waitTime
    ensures forall q :: q in r.requests ==>
              q == SetParameters(height := Some(targetHeight)) || q == StartEmergencyLanding
  {
    var diff := targetHeight - height;
    var hold := if diff <= dh then [SetParameters(height := Some(targetHeight))] else [];
    if reachedTime == 0.0 then
      if Abs(diff) < epsilon then Hop(time, hold + [SetParameters(height := Some(targetHeight))])
      else Hop(0.0, hold)
    else if time - reachedTime >= waitTime then Hop(reachedTime, hold + [StartEmergencyLanding])
    else Hop(reachedTime, hold)
  }

  /**
   * The landing is requested on every tick from `wait_time` after the target
   * was reached, and on none before.
   */
  lemma LandingAfterWait(targetHeight: real, waitTime: real, epsilon: real, dh: real,
                         reachedTime: real, height: real, time: real)
    requires reachedTime != 0.0
    ensures var r := HopStep(targetHeight, waitTime, epsilon, dh, reachedTime, height, time);
            && r.reachedTime == reachedTime
            && (time < reachedTime + waitTime ==> StartEmergencyLanding !in r.requests)
            && (time >= reachedTime + waitTime ==> r.requests[|r.requests| - 1] == StartEmergencyLanding)
  {
  }

  class HopInPlaceMission {
    const targetHeight: real
    const waitTime: real
    const climbRate: real
    const epsilon: real
    const dh: real
    /** When the target height was first reached; 0 until then. */
    var reachedTime: real

    /** The fields as `__init__` sets them once its argument check has passed. */
    constructor (targetHeight: real, waitTime: real, climbRate: real, epsilon: real)
      requires ValidParameters(targetHeight, waitTime, climbRate, epsilon)
      ensures this.targetHeight == targetHeight && this.waitTime == waitTime
      ensures this.climbRate == climbRate && this.epsilon == epsilon
      ensures dh == BrakingHeight(climbRate) && reachedTime == 0.0
    {
      this.targetHeight := targetHeight;
      this.waitTime := waitTime;
      this.climbRate := climbRate;
      this.epsilon := epsilon;
      dh := 1.3 * (climbRate * climbRate) / (2.0 * GRAVITY);
      reachedTime := 0.0;
    }

    /**
     * `start_mission`: speed 0 (and, through the defaults, height 0), then
     * climb-rate mode at the configured rate, then arm the motors.
     */
    method StartMission() returns (reply: Reply)
      ensures reply == Done([SetParameters(Some(0.0), 0.0, 0.0, 0.0),
                             SetAlternativeParameters(Some(climbRate)), Arm])
    {
      reply := Done([SetParameters(speed := 0.0), SetAlternativeParameters(climbRate := Some(climbRate)), Arm]);
    }

    /** `start_as_submission` always raises: a hop cannot run as a child. */
    method StartAsSubmission() returns (reply: Reply)
      ensures reply == Reply([], Some(MissionException))
    {
      reply := Reply([], Some(MissionException));
    }

    method LoopRun(tel: Telemetry) returns (reply: Reply)
      modifies this
      ensures var step := HopStep(targetHeight, waitTime, epsilon, dh, old(reachedTime), tel.height, tel.time);
              reachedTime == step.reachedTime && reply == Done(step.requests)
    {
      var diff := targetHeight - tel.height;
      var requests := [];
      if diff <= dh {
        requests := requests + [SetParameters(height := Some(targetHeight))];
      }
      if reachedTime == 0.0 {
        if Abs(diff) < epsilon {
          reachedTime := tel.time;
          requests := requests + [SetParameters(height := Some(targetHeight))];
        }
      } else if tel.time - reachedTime >= waitTime {
        requests := requests + [StartEmergencyLanding];
      }
      reply := Done(requests);
    }

    method ContinueFromSubmission() returns (reply: Reply)
      ensures reply == Done([])
    {
      reply := Done([]);
    }

    method ContinueFromSubmissionError() returns (reply: Reply)
      ensures reply == Done([])
    {
      reply := Done([]);
    }
  }

  /**
   * `HopInPlaceMission(target_height=1.5, wait_time=6, climb_rate=0.5,
   * epsilon=0.2)`: raises ValueError unless every argument is in range.
   */
  method Create(targetHeight: real := 1.5, waitTime: real := 6.0, climbRate: real := 0.5, epsilon: real := 0.2)
    returns (r: Result<HopInPlaceMission>)
    ensures r.Failure? <==> !ValidParameters(targetHeight, waitTime, climbRate, epsilon)
    ensures r.Failure? ==> r.error == ValueError
    ensures r.Success? ==>
              && fresh(r.value)
              && r.value.targetHeight == targetHeight && r.value.waitTime == waitTime
              && r.value.climbRate == climbRate && r.value.epsilon == epsilon
              && r.value.dh == BrakingHeight(climbRate) && r.value.reachedTime == 0.0
  {
    if targetHeight <= 0.0 || waitTime < 0.0 || climbRate <= 0.0 || epsilon <= 0.0 {
      return Failure(ValueError);
    }
    var hop := new HopInPlaceMission(targetHeight, waitTime, climbRate, epsilon);
    r := Success(hop);
  }
}
