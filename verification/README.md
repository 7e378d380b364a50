# drone-software: the flight supervisor, its missions, the controller and the serial protocol

This project is a Dafny model of the flight software of a quadcopter driven by a Raspberry Pi. The Pi talks to an Arduino that drives the motors. The model covers four parts:

- **The supervisor** (`main.py`, module `Supervision`). It keeps a stack of missions and a mission state (NEW, RUNNING, CONTINUING, CONTINUING_FROM_ERROR). It also keeps the setpoints the missions ask for: height or climb rate, heading, course and speed.
  - Its main loop repeats every cycle while the copter is flying. It runs the controller, watches the ground connection, refreshes the sensors and hands control to the mission on top of the stack.
  - An exception from a mission pops that mission. The mission below it is told that its sub-mission failed. When the stack would become empty, an emergency landing takes over.
- **The missions** (`Mission.py` and `missions/`; modules `MissionContract`, `EmergencyLanding`, `HopInPlace`, `FlyWaypoints`). Every mission answers five lifecycle calls.
  - A mission's calls back into the supervisor (`set_parameters`, `set_alternative_parameters`, `start_sub_mission`, `flight_finished`, `flight_commands.start`) are returned as a `Reply`. The reply lists the calls in order, plus the exception the mission raised, if any. The supervisor carries the calls out in that order.
  - The three concrete missions are classes with the fields the Python objects update. The supervisor holds them through the union `Supervision.Mission`.
- **The PID controller** (`control/controller.py`, module `Controller`).
  - The class `Controller` holds the module's caches and integrators.
  - `ControlLaw` states what one call computes. `Controller.Control` computes it step by step and is proved to agree with it.
  - Throttle and yaw are clamped, with a back-calculated integrator. The horizontal command is capped at magnitude 50.
  - Pitch and roll are not clamped. They are proved to stay within [0, 100] with a true sine, cosine and square root.
- **The serial protocol to the Arduino** (`control/flight_commands.py`, module `FlightCommands`).
  - The port is a class `Serial` with the bytes still to be read and every byte written.
  - The model covers the two-phase start-up handshake, the one-byte commands and the two-byte axis frames. An axis frame raises OverflowError when its payload does not fit a byte.
  - It also covers the status records the Arduino sends back.

Numbers are Dafny `real`s. numpy's sine, cosine, arctangent and square root are function values in `Common.MathLib`. Only range and sign facts are assumed of them, and only where a lemma says so (`UnitCircle`, `ArctanRange`, `ArctanSign`, `SquareRoot`).

Several properties of the code as written are proved rather than assumed:

- `set_parameters` binds its defaults once, when it is defined. So `set_parameters(speed=0)` also resets the height to 0 and the heading to 0 (`Supervision.SpeedOnlyResetsAll`).
- The yaw channel back-calculates its integrator with the height scale factor (`controller.py:109`). So after a clamp at 100 the yaw output lands just above the centre rather than on the bound (`Controller.HeadingBackCalculationMissesBound`).
- Climb-rate mode integrates with the height's integral factor (`controller.py:92`). The climb-rate factor it declares is never used (`Controller.VerticalIntegratorFactor`).

## Model

| member | source | states |
|---|---|---|
| FlightCommands.Trunc | control/flight_commands.py:113 | `int()` truncates toward zero: the result lies within one of the argument, on the side of zero |
| FlightCommands.PercentByte | control/flight_commands.py:110-113 | the payload `int(percent*2)` fits one byte exactly when -0.5 < percent < 128, and is then that truncation |
| FlightCommands.AxisFrame | control/flight_commands.py:102-113 | an axis command succeeds exactly when the payload fits, and then writes marker and payload; otherwise it writes the marker alone and raises OverflowError |
| FlightCommands.PayloadBelowCommandBytes | control/flight_commands.py:102-148 | an axis frame for a percentage in [0, 100] starts with its marker and carries a payload below 0xF9, the lowest of the command bytes 0xF9 < 0xFA < … < 0xFF, so a payload is never read as a command |
| FlightCommands.PercentFrameInRange | control/flight_commands.py:128-137 | any percentage in [0, 100] is sent, with a payload floor(2·percent) in 0..200 |
| FlightCommands.NeutralIsCentredFrames | control/flight_commands.py:86-99 | the neutral sequence is roll 50 %, pitch 50 %, throttle 0 %, yaw 50 %, in that order |
| FlightCommands.SplitLine | control/flight_commands.py:25 | `readline` splits the input into a line and a rest that concatenate back to the input; the line holds no newline but its last byte, and ends in one unless the input ran out |
| FlightCommands.FirstHit | control/flight_commands.py:24-34 | the index of the first line that is the awaited line or the fault line: no earlier line is either |
| FlightCommands.ScanIsFirstHit | control/flight_commands.py:24-34 | a handshake phase finds its line exactly when it comes among the first n lines before any fault line, and consumes exactly the lines up to that one |
| FlightCommands.HandshakeFirstPhase | control/flight_commands.py:24-37 | without "Ready!" in 50 lines, or with the gyro-fault line first, `init` raises TimeoutError having written nothing; once "Ready!" arrives it writes neutral and then 0xF9 |
| FlightCommands.ReadyOnLastTry | control/flight_commands.py:24-34 | "Ready!" on the fiftieth line still passes the first phase, because the break comes before the attempt check |
| FlightCommands.HandshakeSecondPhase | control/flight_commands.py:41-47 | after "Ready!", `init` succeeds exactly when "Starting" is among the next 50 lines, and then writes neutral again; otherwise it raises TimeoutError |
| FlightCommands.DecodeStatus | control/flight_commands.py:57-59 | a status record is four ESC values of 0.4 % per unit, the battery at 0.06 V per unit and the loop time at 16 µs per unit, each within its byte's range, with 0 for a byte that is missing |
| FlightCommands.StatusRecordDecoded | control/flight_commands.py:54-59 | a status line and its six bytes replace the reported ESC, battery and loop-time values and change nothing else |
| FlightCommands.OverrunOnlySetsFlag | control/flight_commands.py:60-61 | an overrun line raises the loop-time-exceeded flag and changes nothing else |
| FlightCommands.OverrunFlagSticks | control/flight_commands.py:54-61 | once the overrun flag is raised, draining the rest of the input never clears it |
| FlightCommands.Serial.constructor | control/flight_commands.py:14 | a freshly opened port has the given bytes waiting and nothing written |
| FlightCommands.Serial.ReadLine | control/flight_commands.py:25 | reads exactly the line `SplitLine` takes off the waiting input and writes nothing |
| FlightCommands.Serial.Read1 | control/flight_commands.py:57 | `read(1)` takes the first waiting byte, or nothing when no byte is waiting |
| FlightCommands.Serial.Write | control/flight_commands.py:74 | appends the bytes to the output and leaves the input alone |
| FlightCommands.Neutral | control/flight_commands.py:86-99 | appends exactly the neutral sequence |
| FlightCommands.Start | control/flight_commands.py:69-74 | appends exactly the arm byte 0xFA |
| FlightCommands.StopAll | control/flight_commands.py:77-83 | appends neutral and then the disarm byte 0xFB |
| FlightCommands.SendAxis | control/flight_commands.py:102-113 | writes and reports exactly what `AxisFrame` describes |
| FlightCommands.Roll | control/flight_commands.py:102-113 | the roll frame (marker 0xFC), raising on a payload that does not fit |
| FlightCommands.Pitch | control/flight_commands.py:116-125 | the pitch frame (marker 0xFD), raising on a payload that does not fit |
| FlightCommands.Throttle | control/flight_commands.py:128-137 | the throttle frame (marker 0xFE), raising on a payload that does not fit |
| FlightCommands.Yaw | control/flight_commands.py:139-148 | the yaw frame (marker 0xFF), raising on a payload that does not fit |
| FlightCommands.AwaitReady | control/flight_commands.py:24-34 | the first loop consumes the lines the first scan reads, writes nothing and fails on the gyro fault or after 50 lines |
| FlightCommands.AwaitStarting | control/flight_commands.py:41-45 | the second loop consumes the lines the second scan reads and fails after 50 lines without "Starting" |
| FlightCommands.Init | control/flight_commands.py:24-47 | the whole handshake: outcome, bytes written and bytes left are those of `Handshake` on the waiting input |
| FlightCommands.ReadStatusRecord | control/flight_commands.py:57-59 | reads the six bytes after a status line and returns their decoded record |
| FlightCommands.PrintStatus | control/flight_commands.py:49-66 | drains all waiting input and reports what `DrainStatus` computes from it, writing nothing |
| Controller.Saturate | control/controller.py:62-76 | a clamped channel's output lies in [0, 100]; inside the range it is the raw PID value and the integrator advances; at or past a bound it is that bound |
| Controller.SaturateBackCalculation | control/controller.py:68-73 | after a clamp, the reset integrator puts the back-calculated output exactly on the bound that was hit |
| Controller.HeadingBackCalculationMissesBound | control/controller.py:107-113 | because yaw back-calculates with the height scale, a yaw output clamped at 100 leaves an integrator that puts yaw just above 50 |
| Controller.Wrap | control/controller.py:96-98 | the wrap moves an angle difference by at most one turn, leaves it alone within [-pi, pi], and brings any value within three half-turns back into [-pi, pi] |
| Controller.WrappedHeadingError | control/controller.py:100-102 | the wrapped error between two headings in [0, 2pi) lies in [-pi, pi] and differs from the raw one by a whole turn or not at all |
| Controller.WrapAcrossNorth | control/controller.py:100-102 | from 350° to 10° the heading error is +20°, not -340° |
| Controller.HorizontalCommand | control/controller.py:115-128 | either the integrator holds or the uncapped command is sent; when the integrator moves it moves by the command times the integral factor |
| Controller.HorizontalCap | control/controller.py:124-128 | the sent horizontal command has magnitude at most 50; one of magnitude 50 or more keeps its direction, is shrunk to 50 and holds the integrator; a shorter one is sent unchanged |
| Controller.BodyFrameInRange | control/controller.py:130-133 | with a true sine and cosine, pitch and roll from a capped command lie in [0, 100] |
| Controller.SendInOrder | control/controller.py:136-140 | the frames go out in order and all succeed exactly when every payload fits; the first that raises stops the rest with OverflowError |
| Controller.ThrottleAndYawAlwaysSent | control/controller.py:136-138 | clamped throttle and yaw frames always go out first; only pitch or roll can raise |
| Controller.TransmitUnfolds | control/controller.py:136-140 | the four frames are throttle, yaw, pitch and roll, cut short after the first that raises |
| Controller.VerticalChannel | control/controller.py:62-92 | the throttle lies in [0, 100] in height mode and in climb-rate mode |
| Controller.YawChannel | control/controller.py:95-113 | the yaw command lies in [0, 100] |
| Controller.ControlLaw | control/controller.py:57-146 | one positive time step sends clamped throttle and yaw, caches exactly the new sample, and advances only the integrator of the active vertical mode |
| Controller.HeightModePrecedence | control/controller.py:62-77 | with a target height set, the climb-rate setpoint has no influence on anything a call computes |
| Controller.VerticalIntegratorFactor | control/controller.py:76-92 | an unclamped throttle advances the active vertical integrator by the error times the height's integral factor, in both modes |
| Controller.CommandsAlwaysSent | control/controller.py:130-140 | with true trigonometry and square root, every stick position lies in [0, 100], so all eight bytes go out and nothing raises |
| Controller.Send | control/controller.py:136-140 | writes and reports exactly the frames and outcome of `Transmit` |
| Controller.Controller.constructor | control/controller.py:6-13 | caches and integrators all start at zero |
| Controller.Controller.Init | control/controller.py:35-43 | caches the time and heading of the first sample and changes nothing else |
| Controller.Controller.Control | control/controller.py:46-146 | a non-positive time step changes and sends nothing; otherwise the integrators become those of `ControlLaw`, the link gets its frames, and the caches are updated only when all four frames went out |
| Controller.Controller.Integrate | control/controller.py:60-133 | computes the command and the integrators of `ControlLaw` for a positive time step and the current velocity it will cache, leaving the caches alone |
| Controller.Controller.ControlVertical | control/controller.py:60-92 | computes the throttle of `VerticalChannel` and updates only the integrator of the active mode |
| Controller.Controller.ControlYaw | control/controller.py:95-113 | computes the yaw of `YawChannel` and updates only the heading integrator |
| Controller.Controller.ControlHorizontal | control/controller.py:115-128 | computes the capped command of `HorizontalChannel`, updates only the horizontal integrator, and returns the current velocity |
| EmergencyLanding.DescentRate | missions/emergency_landing_mission.py:33-38 | above 0.5 m the landing descends at 0.2, 0.3 or 0.6 m/s by height band, always downward |
| EmergencyLanding.DescentSteeperHigher | missions/emergency_landing_mission.py:33-38 | a higher copter never descends more slowly |
| EmergencyLanding.LandingStep | missions/emergency_landing_mission.py:26-38 | the low time is set once, on the first tick at or below 0.5 m; the flight finishes exactly when the copter is low and 4 s have passed since; above 0.5 m only a descent rate is asked for |
| EmergencyLanding.LowTimeLatched | missions/emergency_landing_mission.py:28-32 | once the low time is set, no sequence of ticks changes it, even if the copter climbs back above 0.5 m |
| EmergencyLanding.NeverLeavesTheStack | missions/emergency_landing_mission.py:26-38 | the landing never starts another sub-mission |
| EmergencyLanding.EmergencyLandingMission.constructor | missions/emergency_landing_mission.py:16-18 | a new landing has not yet been low |
| EmergencyLanding.EmergencyLandingMission.StartMission | missions/emergency_landing_mission.py:20-21 | asks for speed 0, which through the bound defaults is height 0, heading 0, course 0 and speed 0 |
| EmergencyLanding.EmergencyLandingMission.StartAsSubmission | missions/emergency_landing_mission.py:23-24 | the same request as `start_mission` |
| EmergencyLanding.EmergencyLandingMission.LoopRun | missions/emergency_landing_mission.py:26-38 | updates the low time and asks for what `LandingStep` decides |
| EmergencyLanding.EmergencyLandingMission.ContinueFromSubmission | missions/emergency_landing_mission.py:42-43 | the same request as `start_mission` |
| EmergencyLanding.EmergencyLandingMission.ContinueFromSubmissionError | missions/emergency_landing_mission.py:45-46 | the same request as `start_mission` |
| HopInPlace.BrakingHeight | missions/hop_in_place.py:29 | the braking margin 1.3·v²/(2g) is never negative |
| HopInPlace.HopStep | missions/hop_in_place.py:53-66 | within the braking margin the first request holds the target height; outside it the hold is asked for only on the tick the target is first reached; the reached time is set once, on the first tick within epsilon of the target, and that tick ends with a hold request; the landing is requested exactly when the wait time has passed since; nothing else is asked for |
| HopInPlace.LandingAfterWait | missions/hop_in_place.py:65-66 | once the target was reached, no landing is requested before the wait ends and one is requested last on every tick after |
| HopInPlace.HopInPlaceMission.constructor | missions/hop_in_place.py:14-30 | in-range arguments are stored, with the braking margin computed from the climb rate and the target not yet reached |
| HopInPlace.HopInPlaceMission.StartMission | missions/hop_in_place.py:33-42 | speed 0 (with the bound defaults), then climb-rate mode at the configured rate, then the arm byte |
| HopInPlace.HopInPlaceMission.StartAsSubmission | missions/hop_in_place.py:44-51 | always raises, having asked for nothing |
| HopInPlace.HopInPlaceMission.LoopRun | missions/hop_in_place.py:53-66 | updates the reached time and asks for what `HopStep` decides |
| HopInPlace.HopInPlaceMission.ContinueFromSubmission | missions/hop_in_place.py:68-75 | asks for nothing |
| HopInPlace.HopInPlaceMission.ContinueFromSubmissionError | missions/hop_in_place.py:77-84 | asks for nothing |
| HopInPlace.Create | missions/hop_in_place.py:14-30 | raises ValueError exactly when an argument is out of range, and otherwise builds the mission with those arguments |
| FlyWaypoints.CalculateCourse | missions/fly_waypoints.py:9-26 | with arctan inside (-pi/2, pi/2) and keeping the sign of its argument, the course lies in [0, 2pi) and in the quadrant of the target, clockwise from north: north-east in (0, pi/2), south-east in (pi/2, pi), south-west in (pi, 3pi/2), north-west in (3pi/2, 2pi); due east is pi/2 and due west 3pi/2 |
| FlyWaypoints.CourseGivesQuadrant | missions/fly_waypoints.py:9-26 | conversely, under the same arctan facts the course tells where the target lies: 0 only due north or at the start itself (fly_waypoints.py:18-19), pi only due south, pi/2 and 3pi/2 only due east and due west, and each open quarter of the circle only for its quadrant |
| FlyWaypoints.ReachedWhenClose | missions/fly_waypoints.py:29-34 | a waypoint is within 2.5 exactly when the squared offsets are below 6.25 |
| FlyWaypoints.WaypointStep | missions/fly_waypoints.py:78-102 | the step stays or advances by one. Takeoff holds 5 m on the current heading, climbing at 0.5 m/s until 2.5 m. Each waypoint is flown to at 5 m and 1 m/s on the computed course until within 2.5. Past the last waypoint, a root mission lands and a child asks for speed 0 |
| FlyWaypoints.StepStaysInRoute | missions/fly_waypoints.py:92-102 | over any run of ticks the step never decreases and never passes one beyond the last waypoint |
| FlyWaypoints.RadiansRoundTrip | missions/fly_waypoints.py:44 | the conversion of the waypoint rows from degrees to radians loses nothing: converting back gives the rows of the file |
| FlyWaypoints.FlyWaypointsMission.constructor | missions/fly_waypoints.py:39-47 | waypoints in radians, step -1, position (0, 0), not the base mission |
| FlyWaypoints.FlyWaypointsMission.Start | missions/fly_waypoints.py:50-52 | records the position and appends it as the final waypoint |
| FlyWaypoints.FlyWaypointsMission.StartMission | missions/fly_waypoints.py:55-64 | becomes the base mission, arms the motors, and appends the start as the final waypoint |
| FlyWaypoints.FlyWaypointsMission.StartAsSubmission | missions/fly_waypoints.py:67-75 | becomes a child mission and appends the start as the final waypoint, asking for nothing |
| FlyWaypoints.FlyWaypointsMission.LoopRun | missions/fly_waypoints.py:78-102 | records the position and moves the step and asks for what `WaypointStep` decides, leaving the waypoints alone |
| FlyWaypoints.FlyWaypointsMission.ContinueFromSubmission | missions/fly_waypoints.py:114-121 | asks for nothing |
| FlyWaypoints.FlyWaypointsMission.ContinueFromSubmissionError | missions/fly_waypoints.py:124-131 | asks for nothing |
| Supervision.WithParameters | main.py:36-54 | a given height replaces the height and clears the climb rate; without one both stay; heading, course and speed are always overwritten; a vertical target is never lost |
| Supervision.WithAlternativeParameters | main.py:57-68 | a given climb rate replaces the climb rate and clears the height; without one nothing changes; a vertical target is never lost |
| Supervision.AfterFinished | main.py:85-95 | the top mission is dropped and the state becomes CONTINUING; when none is left an emergency landing is the only mission, so the stack never empties |
| Supervision.AfterRequests | main.py:36-112 | carrying out a reply's calls never shrinks the stack |
| Supervision.ApplyAllPushesLandings | main.py:71-82 | a reply's calls keep the old stack at the bottom, push one emergency landing per landing they request, and leave the state NEW exactly when one was pushed |
| Supervision.VerticalTargetKept | main.py:36-68 | no sequence of setter calls leaves the controller without a height or a climb rate |
| Supervision.FlyingUntilFinished | main.py:105-112 | after a reply the copter is flying exactly when it was and the reply did not finish the flight |
| Supervision.ErrorInRootMissionLands | main.py:85-102 | an error in the only mission leaves an emergency landing alone on the stack, to be continued from error, with setpoints and flying unchanged |
| Supervision.ErrorReturnsToParent | main.py:98-102 | an error in a sub-mission returns to its parent, which is continued from error next |
| Supervision.SpeedOnlyResetsAll | main.py:20-36 | `set_parameters(speed=0)` sets height 0, heading 0, course 0 and speed 0 and clears the climb rate, whatever the setpoints were |
| Supervision.HopStartClimbs | missions/hop_in_place.py:33-42 | the hop's start leaves the copter in climb-rate mode at the hop's rate with all else 0, the stack unchanged, and the arm byte written |
| Supervision.Invoke | Mission.py:5-56 | each lifecycle call reaches the matching method of the mission: every call but `loop_run` replies as `EntryReply` says and changes the fields `loop_run` reads as `Entered` says (a start of the route mission appends the sample's position); `loop_run` replies `LoopReply` on the old fields and updates the mission as the landing's, hop's or route's step function says; only the hop started as a sub-mission raises, having asked for nothing; an emergency landing never starts another landing |
| Supervision.EntryReply | main.py:168-174 | the reply of each call before `loop_run`: it raises exactly for a hop started as a sub-mission, and then asks for nothing |
| Supervision.HopAsChildIsPopped | missions/hop_in_place.py:44-51 | a hop pushed as a sub-mission raises on its start, is popped by `mission_error` before any `loop_run`, and the mission below (or a new emergency landing) is continued from error next |
| Supervision.Supervisor.constructor | main.py:20-26 | the globals start with an empty stack, state NEW, flying, connection not lost and every setpoint 0 |
| Supervision.Supervisor.AppendMission | main.py:29-33 | a mission is pushed; anything else raises TypeError and leaves the stack alone |
| Supervision.Supervisor.SetParameters | main.py:36-54 | changes exactly the setpoints, as `WithParameters` says |
| Supervision.Supervisor.SetAlternativeParameters | main.py:57-68 | changes exactly the setpoints, as `WithAlternativeParameters` says |
| Supervision.Supervisor.StartSubMission | main.py:71-82 | pushes the mission and sets NEW; a TypeError from the push leaves everything as it was |
| Supervision.Supervisor.MissionFinished | main.py:85-95 | pops the top mission and sets CONTINUING, pushing a new emergency landing when the stack became empty |
| Supervision.Supervisor.MissionError | main.py:98-102 | finishes the top mission, then sets CONTINUING_FROM_ERROR |
| Supervision.Supervisor.FlightFinished | main.py:105-112 | ends the flight and changes nothing else |
| Supervision.Supervisor.Apply | main.py:36-112 | carries out one call of a mission; only `Arm` writes to the link, only its arm byte, and only new missions are pushed |
| Supervision.Supervisor.ApplyAll | main.py:36-112 | carries out a reply's calls in order, writing one arm byte per `Arm` |
| Supervision.Supervisor.CheckConnection | main.py:158-165 | the first cycle without a connection pushes one emergency landing and sets the latch (`AfterConnectionCheck`); once set, the latch stays set and nothing more is pushed |
| Supervision.Supervisor.RefreshSensors | main.py:167 | takes the new sample and drains the Arduino's status from the link, leaving the supervisor state alone |
| Supervision.Supervisor.RunMission | main.py:168-181 | the entry call is the one the state asks for, on the top mission, with the reply `EntryReply` gives; when it raises, `loop_run` is skipped; otherwise `loop_run` runs on the same mission with the current sample and replies `LoopReply` on the fields the entry call left; the globals become those of `AfterMissionCall` on the two replies, the link getting their arm bytes; a hop in state NEW is popped by `mission_error`; the state is never left at CONTINUING |
| Supervision.Supervisor.RunEntry | main.py:169-174 | makes the call `EntryCall` names for the state, or none when RUNNING, and applies its reply; it raises exactly when that reply carries an error, and otherwise leaves the same mission on top with its fields as `Entered` says |
| Supervision.Supervisor.RunLoop | main.py:176-178 | sets RUNNING, then `loop_run` on the top mission with the current sample, which replies `LoopReply` on the mission's fields and never raises, and applies its reply |
| Supervision.Supervisor.CallEntry | main.py:169-174 | an entry call on the top mission replies as `EntryReply` says and its reply is carried out, with `mission_error` when it raised; otherwise the stack and state stay and the top mission's fields become those of `Entered` |
| Supervision.Supervisor.ApplyReply | main.py:168-181 | the globals become `AfterReply`: the reply's calls in order, then `mission_error` if the mission raised; the link gets one arm byte per `Arm`; without an error the state stays or becomes NEW |
| Supervision.Supervisor.Tick | main.py:153-181 | `control` runs first on the previous sample and setpoints: the integrators (and, when all frames went out, the caches) become those of `ControlLaw` and the link gets `ControlOutput`; an exception from it leaves the rest of the cycle undone; otherwise the cycle continues as `FollowMissions` says, including the reply of `loop_run` on the fresh sample, and with true trigonometry nothing raises |
| Supervision.Supervisor.FollowMissions | main.py:158-181 | the globals become those of the connection check followed by `AfterMissionCall` on the replies of the entry call and `loop_run`; `loop_run` runs on the fresh sample and replies `LoopReply` of the old top mission after its entry call, or, on the cycle the connection is lost, that of a new landing; the link gets only their arm bytes and is drained; the sensors hold the new sample |
| Supervision.Supervisor.Watch | main.py:158-167 | the globals become those of `AfterConnectionCheck`: on the cycle the connection is lost a new landing that has not been low is on top in state NEW, otherwise the stack and state stay; the sensors hold the new sample and the link is drained |
| Supervision.Supervisor.StartFirstMission | main.py:141-151 | on a fresh sample, `start_mission` on the base mission replies as `EntryReply` says, then RUNNING and `loop_run`, which replies `LoopReply` on the fields the start left (for a route, with the sample's position appended); neither raises, the globals follow their two replies and the link gets their arm bytes |
| Supervision.Supervisor.FirstStart | main.py:146 | `start_mission` on the base mission replies as `EntryReply` says and never raises; its calls are carried out, the stack stays and the mission's fields become those of `Entered` |
| Supervision.Supervisor.FirstLoop | main.py:147-148 | sets RUNNING, then `loop_run` on the base mission with the current sample, which replies `LoopReply` on the mission's fields and never raises, and applies its reply |
| Supervision.Supervisor.ApplyFirst | main.py:144-151 | the reply's calls are carried out; an exception from the first start ends the flight |
| Supervision.Supervisor.MainRun | main.py:115-186 | a failed handshake crashes the run with its TimeoutError. The run shuts down exactly when the flight ended, and then the link's last bytes are neutral and disarm. Without a connection the loop never runs and the hop is the only mission. Every pass of the loop but the last ends flying, and a shut-down run's last pass ended the flight, so `control` never runs after `flight_finished` |
| Supervision.Supervisor.FlyAndStop | main.py:153-185 | the loop while flying, then the shutdown: the run shuts down exactly when the flight ended, with neutral and disarm last on the link; it crashes only with false trigonometry; all passes but the last end flying |
| Supervision.Supervisor.Setup | main.py:124-131 | the hop is the base mission; `copter.init` runs the handshake and, when it succeeds, a first sensor refresh that drains the link; the heading setpoint and the controller's caches take that sample |
| Supervision.Supervisor.Boot | main.py:124-151 | the set-up, then the first start with a connection; without one the flight is over before the loop with the hop as the only mission |
| Supervision.Supervisor.Fly | main.py:153-181 | `passes` records `_flying` after each pass: all but the last are true, so the loop stops on the first pass that ends the flight; an exception escapes only from `control` with false trigonometry |

## Left out

- The copter module (`copter.py`): its sensor drivers, smoothing and clock are not part of this model. Each sensor refresh is a `Telemetry` value given to the supervisor. The bytes the Arduino sends between refreshes are given with it. Of `copter.init` the model keeps the handshake (copter.py:40) and the closing `refresh_sensors` (copter.py:93), whose `print_status` drains the link (copter.py:130).
- The failsafe thread (`control/failsafe.py`): its pinging is not modelled. `check_connection_now() and get_connection_up()` and the per-cycle `get_connection_up()` are booleans given to `MainRun`. `failsafe.init` and `failsafe.finish` are left out.
- `sensors/gps.py`, `Other/Print_GPS.py` and `reset_copter.py` are not part of this model.
- Opening the serial port (control/flight_commands.py:13-22) and its one-second read timeout: the model starts with the port open. A read that times out returns whatever input is left.
- Printing: the text `print_status` prints is returned as a `StatusReport`, and all other prints are dropped.
- Floating point: numbers are exact reals, so IEEE rounding, infinities and NaN are not modelled.
- Numeric library: the values of sine, cosine, arctangent and square root are not modelled, only the range facts the lemmas assume.
- `np.loadtxt` of the waypoint file is not modelled: the constructor takes the file's rows, in degrees, as a sequence.
- `change_step` and `add_waypoint` of `FlyWaypointsMission` are not modelled. Both have empty bodies, and as written they lack `self`.
- `Mission` is an abstract base class in the source. Here the three concrete missions are joined in the union `Supervision.Mission`, and `Supervision.Invoke` dispatches on it.
- Mission calls back into main.py are not made during the call. They are returned as a `Reply` and carried out, in order, when the lifecycle call returns. No mission reads the supervisor's state, so the order of effects is the same.
- A value on the mission stack that is not a mission cannot occur here. The stack holds only `Mission` values, so `Supervision.Supervisor.AppendMission` takes a `Candidate` that is a mission or not, to keep the TypeError path.
- Supervision.Supervisor.MainRun: `while _flying` runs over a finite sequence of cycles. A run still flying when the cycles are used up ends as `InputExhausted`, so termination of the real loop is not stated.
- Supervision.Supervisor.MainRun: an exception from the controller (an axis payload that does not fit a byte) escapes `main_run` as `Crashed`. With true trigonometry this cannot happen, and `Tick` states that.
- HopInPlace.HopInPlaceMission.constructor requires in-range arguments. The ValueError path of `__init__` is `HopInPlace.Create`.
- Controller.Controller.Control requires a height or a climb rate. The source's docstring asks the same of its callers, and the supervisor keeps it as an invariant (`Supervision.Supervisor.Valid`).
- The time `control` reads from the copter is the time of the latest sample.
