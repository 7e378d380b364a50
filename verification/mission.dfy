/**
 * The contract between the supervisor and its missions (Mission.py): the five
 * lifecycle calls every mission answers, and what a mission asks of the
 * supervisor while answering one.
 *
 * In the source a mission calls back into main.py (`set_parameters`,
 * `set_alternative_parameters`, `start_sub_mission`, `flight_finished`) and into
 * `flight_commands.start`, or raises. Here each lifecycle call returns a `Reply`
 * listing those calls in the order the mission made them, and the exception it
 * raised, if any; the supervisor carries the calls out in that order. No mission
 * reads supervisor state, so carrying them out after the call returns changes
 * nothing.
 */
module MissionContract {
  import opened Common

  /** The abstract methods of `Mission`. */
  datatype Lifecycle =
    | StartMission
    | StartAsSubmission
    | LoopRun
    | ContinueFromSubmission
    | ContinueFromSubmissionError

  /**
   * A call a mission makes while it runs. The defaults are the values the
   * setters of main.py bind when they are defined: every omitted argument is 0.
   */
  datatype Request =
    | SetParameters(height: Option<real> := Some(0.0), heading: real := 0.0, course: real := 0.0, speed: real := 0.0)
    | SetAlternativeParameters(climbRate: Option<real> := Some(0.0))
    | StartEmergencyLanding   // `main.start_sub_mission(EmergencyLandingMission())`
    | FlightFinished          // `main.flight_finished()`
    | Arm                     // `flight_commands.start()`

  /** The calls a lifecycle method made, and the exception it ended with, if any. */
  datatype Reply = Reply(requests: seq<Request>, error: Option<Error>)

  /** A reply that raised nothing. */
  function Done(requests: seq<Request>): Reply {
    Reply(requests, None)
  }
}
