/**
 * The supervisor of main.py: the stack of missions, the mission state machine,
 * the setpoints the missions ask for, and the main loop that, once per cycle,
 * runs the controller, watches the ground connection, refreshes the sensors and
 * hands control to the mission on top of the stack.
 *
 * The module globals of main.py become the fields of `Supervisor`; `Globals` is
 * the same state with each mission replaced by its kind, and the functions on it
 * say what every operation of main.py does to that state.
 */
module Supervision {
  import opened Common
  import opened MissionContract
  import FlightCommands
  import Controller
  import EmergencyLanding
  import HopInPlace
  import FlyWaypoints

  /** `MissionState`: which lifecycle call the top mission gets before its next `loop_run`. */
  datatype MissionState = New | Running | Continuing | ContinuingFromError

  datatype Kind = EmergencyKind | HopKind | WaypointsKind

  /**
   * The globals of main.py, with the missions by kind: `_missions`,
   * `_mission_state`, `_flying`, `_connection_lost` and the setpoints.
   */
  datatype Globals = Globals(
    stack: seq<Kind>,
    state: MissionState,
    flying: bool,
    connectionLost: bool,
    sp: Setpoints)

  /** The setpoints main.py starts with: every global is 0, none is None. */
  const INITIAL_SETPOINTS: Setpoints := Setpoints(Some(0.0), Some(0.0), 0.0, 0.0, 0.0)

  /** The controller can only run with a height or a climb rate to hold. */
  predicate HasVerticalTarget(sp: Setpoints) {
    sp.height.Some? || sp.climbRate.Some?
  }

  /**
   * `set_parameters`: a height that is not None replaces the height and clears
   * the climb rate; heading, course and speed are always overwritten.
   */
  function WithParameters(sp: Setpoints, height: Option<real>, heading: real, course: real, speed: real): (r: Setpoints)
    ensures height.Some? ==> r.height == height && r.climbRate == None
    ensures height.None? ==> r.height == sp.height && r.climbRate == sp.climbRate
    ensures r.heading == heading && r.course == course && r.speed == speed
    ensures HasVerticalTarget(sp) ==> HasVerticalTarget(r)
  {
    var vertical := if height.Some? then sp.(height := height, climbRate := None) else sp;
    vertical.(heading := heading, course := course, speed := speed)
  }

  /**
   * `set_alternative_parameters`: a climb rate that is not None replaces the
   * climb rate and clears the height; otherwise nothing changes.
   */
  function WithAlternativeParameters(sp: Setpoints, climbRate: Option<real>): (r: Setpoints)
    ensures climbRate.Some? ==> r.climbRate == climbRate && r.height == None
    ensures climbRate.None? ==> r == sp
    ensures r.heading == sp.heading && r.course == sp.course && r.speed == sp.speed
    ensures HasVerticalTarget(sp) ==> HasVerticalTarget(r)
  {
    if climbRate.Some? then sp.(climbRate := climbRate, height := None) else sp
  }

  /** `start_sub_mission` given a mission: it goes on top and is started next cycle. */
  function AfterSubMission(g: Globals, k: Kind): Globals {
    g.(stack := g.stack + [k], state := New)
  }

  /**
   * `mission_finished`: the top mission is dropped and the one below continues;
   * when none is left an emergency landing takes over, so the stack never empties.
   */
  function AfterFinished(g: Globals): (r: Globals)
    requires |g.stack| >= 1
    ensures |r.stack| >= 1 && r.state == Continuing
    ensures |g.stack| >= 2 ==> r.stack == g.stack[..|g.stack| - 1]
    ensures |g.stack| == 1 ==> r.stack == [EmergencyKind]
    ensures r.flying == g.flying && r.connectionLost == g.connectionLost && r.sp == g.sp
  {
    var popped := g.stack[..|g.stack| - 1];
    g.(stack := if popped == [] then [EmergencyKind] else popped, state := Continuing)
  }

  /** `mission_error`: finish the top mission, then mark that it failed. */
  function AfterError(g: Globals): Globals
    requires |g.stack| >= 1
  {
    AfterFinished(g).(state := ContinuingFromError)
  }

  /** What one call a mission makes does to the globals (`Arm` only writes to the link). */
  function AfterRequest(g: Globals, q: Request): Globals {
    match q
    case SetParameters(height, heading, course, speed) =>
      g.(sp := WithParameters(g.sp, height, heading, course, speed))
    case SetAlternativeParameters(climbRate) =>
      g.(sp := WithAlternativeParameters(g.sp, climbRate))
    case StartEmergencyLanding => AfterSubMission(g, EmergencyKind)
    case FlightFinished => g.(flying := false)
    case Arm => g
  }

  /** The calls of one reply, carried out in order. */
  function AfterRequests(g: Globals, qs: seq<Request>): (r: Globals)
    ensures |r.stack| >= |g.stack|
    decreases |qs|
  {
    if qs == [] then g else AfterRequest(AfterRequests(g, qs[..|qs| - 1]), qs[|qs| - 1])
  }

  /** The bytes the calls of a reply write to the link: the ARM byte of each `Arm`. */
  function ArmWrites(qs: seq<Request>): seq<FlightCommands.byte>
    decreases |qs|
  {
    if qs == [] then []
    else ArmWrites(qs[..|qs| - 1]) + (if qs[|qs| - 1] == Arm then [FlightCommands.ARM] else [])
  }

  /** How many emergency landings the calls start. */
  function Landings(qs: seq<Request>): nat
    decreases |qs|
  {
    if qs == [] then 0
    else Landings(qs[..|qs| - 1]) + (if qs[|qs| - 1] == StartEmergencyLanding then 1 else 0)
  }

  /** The lifecycle call the main loop makes before `loop_run` in each state. */
  function EntryCall(state: MissionState): (call: Option<Lifecycle>)
    ensures call.None? <==> state == Running
    ensures state == New ==> call == Some(StartAsSubmission)
    ensures state == Continuing ==> call == Some(ContinueFromSubmission)
    ensures state == ContinuingFromError ==> call == Some(ContinueFromSubmissionError)
  {
    match state
    case New => Some(StartAsSubmission)
    case Running => None
    case Continuing => Some(ContinueFromSubmission)
    case ContinuingFromError => Some(ContinueFromSubmissionError)
  }

  /**
   * The calls of a reply never remove a mission: the old stack stays below,
   * one emergency landing is pushed per `StartEmergencyLanding`, and the state
   * becomes New exactly when one was pushed.
   */
  lemma {:induction false} ApplyAllPushesLandings(g: Globals, qs: seq<Request>)
    ensures var r := AfterRequests(g, qs);
            && |r.stack| == |g.stack| + Landings(qs)
            && r.stack[..|g.stack|] == g.stack
            && (forall i :: |g.stack| <= i < |r.stack| ==> r.stack[i] == EmergencyKind)
            && r.state == (if Landings(qs) > 0 then New else g.state)
            && r.connectionLost == g.connectionLost
    decreases |qs|
  {
    if qs != [] {
      var init := qs[..|qs| - 1];
      ApplyAllPushesLandings(g, init);
      var mid := AfterRequests(g, init);
      assert mid.stack[..|g.stack|] == g.stack;
      if qs[|qs| - 1] == StartEmergencyLanding {
        var r := AfterRequests(g, qs);
        assert r.stack == mid.stack + [EmergencyKind];
        assert r.stack[..|g.stack|] == mid.stack[..|g.stack|];
      }
    }
  }

  /** The calls of a reply never leave the controller without a height or climb rate. */
  lemma {:induction false} VerticalTargetKept(g: Globals, qs: seq<Request>)
    requires HasVerticalTarget(g.sp)
    ensures HasVerticalTarget(AfterRequests(g, qs).sp)
    decreases |qs|
  {
    if qs != [] {
      VerticalTargetKept(g, qs[..|qs| - 1]);
    }
  }

  /** Only `flight_finished` ends the flight, and nothing restarts it. */
  lemma {:induction false} FlyingUntilFinished(g: Globals, qs: seq<Request>)
    ensures AfterRequests(g, qs).flying <==> g.flying && FlightFinished !in qs
    decreases |qs|
  {
    if qs != [] {
      var init := qs[..|qs| - 1];
      FlyingUntilFinished(g, init);
      assert qs == init + [qs[|qs| - 1]];
      assert FlightFinished in qs <==> FlightFinished in init || qs[|qs| - 1] == FlightFinished;
    }
  }

  /**
   * An error in the only mission on the stack hands the flight to an emergency
   * landing, which is told next cycle that its predecessor failed.
   */
  lemma ErrorInRootMissionLands(g: Globals)
    requires |g.stack| == 1
    ensures AfterError(g).stack == [EmergencyKind]
    ensures EntryCall(AfterError(g).state) == Some(ContinueFromSubmissionError)
    ensures AfterError(g).sp == g.sp && AfterError(g).flying == g.flying
  {
  }

  /**
   * An error in a sub-mission returns to the mission that started it, which is
   * told next cycle that its sub-mission failed.
   */
  lemma ErrorReturnsToParent(g: Globals)
    requires |g.stack| >= 2
    ensures AfterError(g).stack == g.stack[..|g.stack| - 1]
    ensures EntryCall(AfterError(g).state) == Some(ContinueFromSubmissionError)
  {
  }

  /**
   * The default arguments of `set_parameters` are bound once, to the initial
   * globals, so `set_parameters(speed=0)` also asks for height 0 and heading 0
   * whatever the setpoints were: the emergency landing's start resets the heading.
   */
  lemma SpeedOnlyResetsAll(sp: Setpoints)
    ensures WithParameters(sp, Some(0.0), 0.0, 0.0, 0.0) == Setpoints(Some(0.0), None, 0.0, 0.0, 0.0)
  {
  }

  /** The hop's `start_mission` leaves the copter climbing at the hop's climb rate. */
  lemma HopStartClimbs(g: Globals, climbRate: real)
    ensures var qs := [SetParameters(Some(0.0), 0.0, 0.0, 0.0), SetAlternativeParameters(Some(climbRate)), Arm];
            && AfterRequests(g, qs).sp == Setpoints(None, Some(climbRate), 0.0, 0.0, 0.0)
            && AfterRequests(g, qs).stack == g.stack
            && ArmWrites(qs) == [FlightCommands.ARM]
  {
    var q0, q1 := SetParameters(Some(0.0), 0.0, 0.0, 0.0), SetAlternativeParameters(Some(climbRate));
    var s0, s1, qs := [q0], [q0, q1], [q0, q1, Arm];
    assert s0[..0] == [] && s1[..1] == s0 && qs[..2] == s1;
    assert AfterRequests(g, s0) == AfterRequest(g, q0);
    assert AfterRequests(g, s1) == AfterRequest(AfterRequest(g, q0), q1);
    assert AfterRequests(g, qs) == AfterRequests(g, s1);
    assert ArmWrites(s0) == [];
    assert ArmWrites(s1) == ArmWrites(s0);
    assert ArmWrites(qs) == ArmWrites(s1) + [FlightCommands.ARM];
  }

  /** The calls of one reply, then `mission_error` when the mission raised. */
  function AfterReply(g: Globals, reply: Reply): (r: Globals)
    requires |g.stack| >= 1
    ensures |r.stack| >= 1
  {
    var applied := AfterRequests(g, reply.requests);
    if reply.error.Some? then AfterError(applied) else applied
  }

  /** Lines 158-165 of `main_run`: the first cycle without a connection starts an emergency landing. */
  function AfterConnectionCheck(g: Globals, connectionUp: bool): Globals {
    if !g.connectionLost && !connectionUp then AfterSubMission(g, EmergencyKind).(connectionLost := true) else g
  }

  /**
   * Lines 168-181 of `main_run`: the reply of the entry call, when the state asks
   * for one, then, unless that raised, RUNNING and the reply of `loop_run`.
   */
  function AfterMissionCall(g: Globals, entry: Option<Reply>, loop: Option<Reply>): (r: Globals)
    requires |g.stack| >= 1
    ensures |r.stack| >= 1
  {
    var g1 := if entry.Some? then AfterReply(g, entry.value) else g;
    if loop.Some? then AfterReply(g1.(state := Running), loop.value) else g1
  }

  /** The bytes an optional reply's calls write to the link. */
  function Writes(reply: Option<Reply>): seq<FlightCommands.byte> {
    if reply.Some? then ArmWrites(reply.value.requests) else []
  }

  /**
   * A hop pushed as a sub-mission raises from `start_as_submission` before
   * asking for anything, so it is popped at once, `loop_run` is skipped, and the
   * mission below it is continued from error next cycle.
   */
  lemma HopAsChildIsPopped(g: Globals, h: HopInPlace.HopInPlaceMission)
    requires |g.stack| >= 1 && g.state == New
    ensures var entry := EntryReply(Hop(h), EntryCall(g.state).value);
            && entry.error.Some?
            && AfterMissionCall(g, Some(entry), None) == AfterError(g)
            && EntryCall(AfterError(g).state) == Some(ContinueFromSubmissionError)
            && (|g.stack| >= 2 ==> AfterError(g).stack == g.stack[..|g.stack| - 1])
            && (|g.stack| == 1 ==> AfterError(g).stack == [EmergencyKind])
  {
    assert AfterRequests(g, []) == g;
  }

  /** A mission object of one of the three kinds the core defines. */
  datatype Mission =
    | Emergency(e: EmergencyLanding.EmergencyLandingMission)
    | Hop(h: HopInPlace.HopInPlaceMission)
    | Waypoints(w: FlyWaypoints.FlyWaypointsMission)
  {
    function Kind(): Kind {
      match this
      case Emergency(_) => EmergencyKind
      case Hop(_) => HopKind
      case Waypoints(_) => WaypointsKind
    }

    function Object(): object {
      match this
      case Emergency(e) => e
      case Hop(h) => h
      case Waypoints(w) => w
    }
  }

  /** A mission object is never the controller. */
  lemma ObjectIsNotController(m: Mission, c: Controller.Controller)
    ensures m.Object() != c
  {
    match m
    case Emergency(e) =>
    case Hop(h) =>
    case Waypoints(w) =>
  }

  /** A mission object is never the supervisor or its link. */
  lemma ObjectIsNotSupervisor(m: Mission, s: Supervisor)
    ensures m.Object() != s && m.Object() != s.link
  {
    match m
    case Emergency(e) =>
    case Hop(h) =>
    case Waypoints(w) =>
  }

  /**
   * The reply of every lifecycle call but `loop_run`: none of them depends on a
   * field the mission changes. Only the hop started as a sub-mission raises.
   */
  function EntryReply(m: Mission, call: Lifecycle): (reply: Reply)
    requires call != LoopRun
    ensures reply.error.Some? <==> m.Hop? && call == StartAsSubmission
    ensures reply.error.Some? ==> reply.requests == []
  {
    match m
    case Emergency(_) => Done([SetParameters(Some(0.0), 0.0, 0.0, 0.0)])
    case Hop(h) =>
      if call == StartMission then
        Done([SetParameters(Some(0.0), 0.0, 0.0, 0.0), SetAlternativeParameters(Some(h.climbRate)), Arm])
      else if call == StartAsSubmission then Reply([], Some(MissionException))
      else Done([])
    case Waypoints(_) => if call == StartMission then Done([Arm]) else Done([])
  }

  /** The fields of a mission that its `loop_run` reads or changes. */
  datatype MissionView =
    | LandingView(lowTime: real)
    | HopView(targetHeight: real, waitTime: real, epsilon: real, dh: real, reachedTime: real)
    | RouteView(step: FlyWaypoints.StepIndex, waypoints: seq<Coord>, isBaseMission: bool, math: MathLib)

  function View(m: Mission): MissionView
    reads m.Object()
  {
    match m
    case Emergency(e) => LandingView(e.lowTime)
    case Hop(h) => HopView(h.targetHeight, h.waitTime, h.epsilon, h.dh, h.reachedTime)
    case Waypoints(w) => RouteView(w.step, w.waypoints, w.isBaseMission, w.math)
  }

  /**
   * The fields after the entry call `entry`, if any, made with the sample `tel`:
   * a start of the route mission appends the position of the sample as the
   * last waypoint; every other entry call leaves the fields as they were.
   */
  function Entered(v: MissionView, entry: Option<Lifecycle>, tel: Telemetry): MissionView {
    if v.RouteView? && (entry == Some(StartMission) || entry == Some(StartAsSubmission)) then
      v.(waypoints := v.waypoints + [tel.coordinates], isBaseMission := entry == Some(StartMission))
    else v
  }

  /** The reply of `loop_run` on a mission with fields `v` and the sample `tel`. */
  function LoopReply(v: MissionView, tel: Telemetry): Reply {
    match v
    case LandingView(lowTime) => Done(EmergencyLanding.LandingStep(lowTime, tel.height, tel.wallClock).requests)
    case HopView(targetHeight, waitTime, epsilon, dh, reachedTime) =>
      Done(HopInPlace.HopStep(targetHeight, waitTime, epsilon, dh, reachedTime, tel.height, tel.time).requests)
    case RouteView(step, waypoints, isBaseMission, math) =>
      Done(FlyWaypoints.WaypointStep(step, waypoints, isBaseMission, tel, math).requests)
  }

  /** Calls that do not include `StartEmergencyLanding` start no landing. */
  lemma {:induction false} NoLandingRequested(qs: seq<Request>)
    requires StartEmergencyLanding !in qs
    ensures Landings(qs) == 0
    decreases |qs|
  {
    if qs != [] {
      NoLandingRequested(qs[..|qs| - 1]);
    }
  }

  /** What `_append_mission` is given: a `Mission`, or any other value. */
  datatype Candidate = IsMission(mission: Mission) | NotAMission

  function Kinds(ms: seq<Mission>): (ks: seq<Kind>)
    ensures |ks| == |ms| && forall i :: 0 <= i < |ms| ==> ks[i] == ms[i].Kind()
  {
    seq(|ms|, i requires 0 <= i < |ms| => ms[i].Kind())
  }

  /** `before` lies at the bottom of `after`. */
  ghost predicate Extends(before: seq<Mission>, after: seq<Mission>) {
    |before| <= |after| && after[..|before|] == before
  }

  /**
   * One lifecycle call on a mission. Only the hop, started as a sub-mission,
   * raises; an emergency landing never starts another one.
   */
  method Invoke(m: Mission, call: Lifecycle, tel: Telemetry) returns (reply: Reply)
    modifies m.Object()
    ensures reply.error.Some? <==> m.Hop? && call == StartAsSubmission
    ensures reply.error.Some? ==> reply == Reply([], Some(MissionException))
    ensures m.Emergency? ==> StartEmergencyLanding !in reply.requests
    ensures call != LoopRun ==> reply == EntryReply(m, call)
    ensures m.Emergency? && call == LoopRun ==>
              var step := EmergencyLanding.LandingStep(old(m.e.lowTime), tel.height, tel.wallClock);
              reply == Done(step.requests) && m.e.lowTime == step.lowTime
    ensures m.Hop? && call == LoopRun ==>
              var step := HopInPlace.HopStep(m.h.targetHeight, m.h.waitTime, m.h.epsilon, m.h.dh,
                                             old(m.h.reachedTime), tel.height, tel.time);
              reply == Done(step.requests) && m.h.reachedTime == step.reachedTime
    ensures m.Waypoints? && call == LoopRun ==>
              var leg := FlyWaypoints.WaypointStep(old(m.w.step), old(m.w.waypoints), old(m.w.isBaseMission), tel, m.w.math);
              reply == Done(leg.requests) && m.w.step == leg.step
    ensures m.Waypoints? && (call == StartMission || call == StartAsSubmission) ==>
              m.w.waypoints == old(m.w.waypoints) + [tel.coordinates] && m.w.isBaseMission == (call == StartMission)
    ensures call == LoopRun ==> reply == LoopReply(old(View(m)), tel)
    ensures call != LoopRun ==> View(m) == Entered(old(View(m)), Some(call), tel)
  {
    match m
    case Emergency(e) =>
      match call {
        case StartMission => reply := e.StartMission();
        case StartAsSubmission => reply := e.StartAsSubmission();
        case LoopRun =>
          reply := e.LoopRun(tel);
          EmergencyLanding.NeverLeavesTheStack(old(e.lowTime), tel.height, tel.wallClock);
        case ContinueFromSubmission => reply := e.ContinueFromSubmission();
        case ContinueFromSubmissionError => reply := e.ContinueFromSubmissionError();
      }
    case Hop(h) =>
      match call {
        case StartMission => reply := h.StartMission();
        case StartAsSubmission => reply := h.StartAsSubmission();
        case LoopRun => reply := h.LoopRun(tel);
        case ContinueFromSubmission => reply := h.ContinueFromSubmission();
        case ContinueFromSubmissionError => reply := h.ContinueFromSubmissionError();
      }
    case Waypoints(w) =>
      match call {
        case StartMission => reply := w.StartMission(tel);
        case StartAsSubmission => reply := w.StartAsSubmission(tel);
        case LoopRun => reply := w.LoopRun(tel);
        case ContinueFromSubmission => reply := w.ContinueFromSubmission();
        case ContinueFromSubmissionError => reply := w.ContinueFromSubmissionError();
      }
  }

  /** What the copter module provides once per cycle: a sensor sample and the bytes the Arduino sent. */
  datatype Refresh = Refresh(sample: Telemetry, incoming: seq<FlightCommands.byte>)

  /** One cycle's inputs: the failsafe's connection flag and the sensor refresh. */
  datatype Cycle = Cycle(connectionUp: bool, refresh: Refresh)

  /** How `main_run` ends. */
  datatype RunEnd =
    | ShutDown                // the loop ended and the copter was shut down
    | Crashed(error: Error)   // an exception escaped `main_run`
    | InputExhausted          // still flying when the modelled cycles ran out

  class Supervisor {
    /** The serial link to the Arduino. */
    const link: FlightCommands.Serial
    const controller: Controller.Controller
    var height: Option<real>
    var climbRate: Option<real>
    var heading: real
    var course: real
    var speed: real
    var connectionLost: bool
    var missions: seq<Mission>
    var state: MissionState
    var flying: bool
    /** The copter module's latest sensor sample. */
    var sensors: Telemetry

    function Targets(): Setpoints
      reads this
    {
      Setpoints(height, climbRate, heading, course, speed)
    }

    function Abstract(): Globals
      reads this
    {
      Globals(Kinds(missions), state, flying, connectionLost, Targets())
    }

    /** The stack is never empty and the controller always has a vertical target. */
    ghost predicate Valid()
      reads this
    {
      |missions| >= 1 && HasVerticalTarget(Targets())
    }

    function Top(): Mission
      reads this
      requires |missions| >= 1
    {
      missions[|missions| - 1]
    }

    /** The module globals of main.py at import time. */
    constructor (math: MathLib, boot: seq<FlightCommands.byte>)
      ensures fresh(link) && fresh(controller)
      ensures link.input == boot && link.output == []
      ensures controller.math == math
      ensures Abstract() == Globals([], New, true, false, INITIAL_SETPOINTS) && missions == []
    {
      link := new FlightCommands.Serial(boot);
      controller := new Controller.Controller(math);
      height, climbRate, heading, course, speed := Some(0.0), Some(0.0), 0.0, 0.0, 0.0;
      connectionLost := false;
      missions := [];
      state := New;
      flying := true;
      sensors := Telemetry(0.0, 0.0, 0.0, 0.0, 0.0, 0.0, 0.0, Coord(0.0, 0.0));
    }

    /** `_append_mission`: anything but a mission raises TypeError. */
    method AppendMission(c: Candidate) returns (r: Outcome)
      modifies this
      ensures c.NotAMission? ==> r == Raised(TypeError) && missions == old(missions)
      ensures c.IsMission? ==> r == Ok && missions == old(missions) + [c.mission]
      ensures state == old(state) && flying == old(flying) && connectionLost == old(connectionLost)
      ensures Targets() == old(Targets()) && sensors == old(sensors)
    {
      if c.IsMission? {
        missions := missions + [c.mission];
        r := Ok;
      } else {
        r := Raised(TypeError);
      }
    }

    method SetParameters(height: Option<real> := Some(0.0), heading: real := 0.0, course: real := 0.0, speed: real := 0.0)
      modifies this
      ensures Abstract() == old(Abstract()).(sp := WithParameters(old(Targets()), height, heading, course, speed))
      ensures missions == old(missions) && sensors == old(sensors)
    {
      if height.Some? {
        this.height := height;
        climbRate := None;
      }
      this.heading := heading;
      this.course := course;
      this.speed := speed;
    }

    method SetAlternativeParameters(climbRate: Option<real> := Some(0.0))
      modifies this
      ensures Abstract() == old(Abstract()).(sp := WithAlternativeParameters(old(Targets()), climbRate))
      ensures missions == old(missions) && sensors == old(sensors)
    {
      if climbRate.Some? {
        this.climbRate := climbRate;
        height := None;
      }
    }

    /** `start_sub_mission`: a TypeError from `_append_mission` leaves the state as it was. */
    method StartSubMission(c: Candidate) returns (r: Outcome)
      modifies this
      ensures c.NotAMission? ==> r == Raised(TypeError) && Abstract() == old(Abstract()) && missions == old(missions)
      ensures c.IsMission? ==>
                && r == Ok && missions == old(missions) + [c.mission]
                && Abstract() == AfterSubMission(old(Abstract()), c.mission.Kind())
      ensures sensors == old(sensors)
    {
      r := AppendMission(c);
      if r.Raised? {
        return;
      }
      state := New;
      assert Kinds(missions) == Kinds(old(missions)) + [c.mission.Kind()];
    }

    method MissionFinished()
      requires |missions| >= 1
      modifies this
      ensures Abstract() == AfterFinished(old(Abstract()))
      ensures |old(missions)| >= 2 ==> missions == old(missions)[..|old(missions)| - 1]
      ensures |old(missions)| == 1 ==> |missions| == 1 && fresh(missions[0].Object())
      ensures sensors == old(sensors)
    {
      missions := missions[..|missions| - 1];
      state := Continuing;
      if |missions| == 0 {
        var landing := new EmergencyLanding.EmergencyLandingMission();
        var _ := AppendMission(IsMission(Emergency(landing)));
      }
      assert Kinds(missions) == AfterFinished(old(Abstract())).stack;
    }

    method MissionError()
      requires |missions| >= 1
      modifies this
      ensures Abstract() == AfterError(old(Abstract()))
      ensures |old(missions)| >= 2 ==> missions == old(missions)[..|old(missions)| - 1]
      ensures |old(missions)| == 1 ==> |missions| == 1 && fresh(missions[0].Object())
      ensures sensors == old(sensors)
    {
      MissionFinished();
      state := ContinuingFromError;
    }

    method FlightFinished()
      modifies this
      ensures Abstract() == old(Abstract()).(flying := false)
      ensures missions == old(missions) && sensors == old(sensors)
    {
      flying := false;
    }

    /** Carry out one call a mission made. */
    method Apply(q: Request)
      modifies this, link
      ensures Abstract() == AfterRequest(old(Abstract()), q)
      ensures link.output == old(link.output) + (if q == Arm then [FlightCommands.ARM] else [])
      ensures link.input == old(link.input) && sensors == old(sensors)
      ensures Extends(old(missions), missions)
      ensures forall i :: |old(missions)| <= i < |missions| ==> fresh(missions[i].Object())
    {
      match q
      case SetParameters(h, hd, c, s) =>
        SetParameters(h, hd, c, s);
      case SetAlternativeParameters(cr) =>
        SetAlternativeParameters(cr);
      case StartEmergencyLanding =>
        var landing := new EmergencyLanding.EmergencyLandingMission();
        var _ := StartSubMission(IsMission(Emergency(landing)));
      case FlightFinished =>
        FlightFinished();
      case Arm =>
        FlightCommands.Start(link);
    }

    /** Carry out the calls of one reply, in the order the mission made them. */
    method ApplyAll(qs: seq<Request>)
      modifies this, link
      ensures Abstract() == AfterRequests(old(Abstract()), qs)
      ensures link.output == old(link.output) + ArmWrites(qs)
      ensures link.input == old(link.input) && sensors == old(sensors)
      ensures Extends(old(missions), missions)
      ensures forall i :: |old(missions)| <= i < |missions| ==> fresh(missions[i].Object())
    {
      var k := 0;
      while k < |qs|
        invariant 0 <= k <= |qs|
        invariant Abstract() == AfterRequests(old(Abstract()), qs[..k])
        invariant link.output == old(link.output) + ArmWrites(qs[..k])
        invariant link.input == old(link.input) && sensors == old(sensors)
        invariant Extends(old(missions), missions)
        invariant forall i :: |old(missions)| <= i < |missions| ==> fresh(missions[i].Object())
      {
        Apply(qs[k]);
        assert qs[..k + 1][..k] == qs[..k];
        k := k + 1;
      }
      assert qs[..k] == qs;
    }

    /**
     * Lines 159-165 of `main_run`: the first cycle without a connection starts an
     * emergency landing; the flag then stays set and no second landing is started.
     */
    method CheckConnection(connectionUp: bool)
      modifies this
      ensures connectionLost == (old(connectionLost) || !connectionUp)
      ensures !old(connectionLost) && !connectionUp ==>
                && Abstract() == AfterSubMission(old(Abstract()), EmergencyKind).(connectionLost := true)
                && |missions| == |old(missions)| + 1 && missions[..|old(missions)|] == old(missions)
                && fresh(missions[|old(missions)|].Object())
                && missions[|old(missions)|].Emergency? && missions[|old(missions)|].e.lowTime == 0.0
      ensures old(connectionLost) || connectionUp ==> Abstract() == old(Abstract()) && missions == old(missions)
      ensures Abstract() == AfterConnectionCheck(old(Abstract()), connectionUp)
      ensures sensors == old(sensors)
    {
      if !connectionLost && !connectionUp {
        var landing := new EmergencyLanding.EmergencyLandingMission();
        var _ := StartSubMission(IsMission(Emergency(landing)));
        connectionLost := true;
        assert missions[..|old(missions)|] == old(missions);
      }
    }

    /** `copter.refresh_sensors`: a new sample, and the Arduino's status drained from the link. */
    method RefreshSensors(refresh: Refresh) returns (report: FlightCommands.StatusReport)
      modifies this, link
      ensures sensors == refresh.sample
      ensures report == FlightCommands.DrainStatus(old(link.input) + refresh.incoming, FlightCommands.NO_STATUS)
      ensures link.input == [] && link.output == old(link.output)
      ensures Abstract() == old(Abstract()) && missions == old(missions)
    {
      sensors := refresh.sample;
      link.Receive(refresh.incoming);
      report := FlightCommands.PrintStatus(link);
    }

    /**
     * Lines 168-181 of `main_run`: the entry call the state asks for, then
     * `loop_run` on whatever mission is on top by then; an exception from either
     * is a `mission_error`. `entry` and `loop` are the replies of the two calls
     * and `loopTarget` the mission `loop_run` ran on. CONTINUING is never left
     * behind, because the only caller of `mission_finished` is `mission_error`.
     */
    method RunMission() returns (ghost entry: Option<Reply>, ghost loop: Option<Reply>, ghost loopTarget: Mission)
      requires Valid()
      modifies this, link, Top().Object()
      ensures Valid()
      ensures entry.Some? <==> EntryCall(old(state)).Some?
      ensures entry.Some? ==> entry.value == EntryReply(old(Top()), EntryCall(old(state)).value)
      ensures loop.None? <==> entry.Some? && entry.value.error.Some?
      ensures loop.Some? ==> loop.value.error.None?
      ensures loop.Some? ==> loopTarget == old(Top()) && loop.value == LoopReply(Entered(old(View(Top())), EntryCall(old(state)), sensors), sensors)
      ensures Abstract() == AfterMissionCall(old(Abstract()), entry, loop)
      ensures old(state) == New && old(Top()).Hop? ==> loop.None? && Abstract() == AfterError(old(Abstract()))
      ensures link.output == old(link.output) + Writes(entry) + Writes(loop) && link.input == old(link.input)
      ensures state != Continuing
      ensures sensors == old(sensors) && connectionLost == old(connectionLost)
      ensures forall i :: 0 <= i < |missions| ==> missions[i] in old(missions) || fresh(missions[i].Object())
    {
      var raised: bool;
      raised, entry, loopTarget := RunEntry();
      loop := None;
      if raised {
        return;
      }
      var reply := RunLoop();
      loop := Some(reply);
    }

    /**
     * Lines 176-178 of `main_run`: the state becomes RUNNING and `loop_run` is
     * called on the top mission with the current sample; its calls are carried out.
     */
    method RunLoop() returns (reply: Reply)
      requires Valid()
      modifies this, link, Top().Object()
      ensures Valid()
      ensures reply == LoopReply(old(View(Top())), sensors) && reply.error.None?
      ensures Abstract() == AfterReply(old(Abstract()).(state := Running), reply)
      ensures link.output == old(link.output) + ArmWrites(reply.requests) && link.input == old(link.input)
      ensures state != Continuing
      ensures sensors == old(sensors) && connectionLost == old(connectionLost)
      ensures forall i :: 0 <= i < |missions| ==> missions[i] in old(missions) || fresh(missions[i].Object())
    {
      state := Running;
      ObjectIsNotSupervisor(Top(), this);
      reply := Invoke(Top(), LoopRun, sensors);
      ApplyReply(reply);
    }

    /** Lines 169-174 of `main_run`: the call the mission state asks for before `loop_run`, if any. */
    method RunEntry() returns (raised: bool, ghost entry: Option<Reply>, ghost next: Mission)
      requires Valid()
      modifies this, link, Top().Object()
      ensures Valid()
      ensures next == Top()
      ensures !raised ==> next == old(Top()) && View(next) == Entered(old(View(Top())), EntryCall(old(state)), sensors)
      ensures entry.Some? <==> EntryCall(old(state)).Some?
      ensures entry.Some? ==> entry.value == EntryReply(old(Top()), EntryCall(old(state)).value)
      ensures raised <==> entry.Some? && entry.value.error.Some?
      ensures raised ==> state == ContinuingFromError
      ensures entry.None? ==> missions == old(missions)
      ensures Abstract() == AfterMissionCall(old(Abstract()), entry, None)
      ensures link.output == old(link.output) + Writes(entry) && link.input == old(link.input)
      ensures !raised ==> Extends(old(missions), missions)
      ensures !raised ==> forall i :: |old(missions)| <= i < |missions| ==> fresh(missions[i].Object())
      ensures sensors == old(sensors) && connectionLost == old(connectionLost)
      ensures forall i :: 0 <= i < |missions| ==> missions[i] in old(missions) || fresh(missions[i].Object())
    {
      entry, raised := None, false;
      var call := EntryCall(state);
      if call.Some? {
        var reply := CallEntry(call.value);
        entry, raised := Some(reply), reply.error.Some?;
      }
      next := Top();
    }

    /**
     * An entry call on the top mission, and its reply carried out. When it does
     * not raise, the same mission stays on top, and its `loop_run` on the same
     * sample replies as after this call.
     */
    method CallEntry(call: Lifecycle) returns (reply: Reply)
      requires Valid() && call != LoopRun
      modifies this, link, Top().Object()
      ensures Valid()
      ensures reply == EntryReply(old(Top()), call)
      ensures reply.error.None? ==>
                missions == old(missions) && View(Top()) == Entered(old(View(Top())), Some(call), sensors)
      ensures Abstract() == AfterReply(old(Abstract()), reply)
      ensures link.output == old(link.output) + ArmWrites(reply.requests) && link.input == old(link.input)
      ensures reply.error.None? ==> state == old(state)
      ensures state != Continuing || old(state) == Continuing
      ensures sensors == old(sensors) && connectionLost == old(connectionLost)
      ensures forall i :: 0 <= i < |missions| ==> missions[i] in old(missions) || fresh(missions[i].Object())
    {
      ObjectIsNotSupervisor(Top(), this);
      reply := Invoke(Top(), call, sensors);
      ghost var before := missions;
      NoLandingRequested(reply.requests);
      ApplyReply(reply);
      if reply.error.None? {
        assert missions == before;
      }
    }

    /** The calls of a reply, then `mission_error` if the mission raised. */
    method ApplyReply(reply: Reply)
      requires Valid()
      modifies this, link
      ensures Valid()
      ensures Abstract() == AfterReply(old(Abstract()), reply)
      ensures link.output == old(link.output) + ArmWrites(reply.requests) && link.input == old(link.input)
      ensures reply.error.None? ==> state == old(state) || state == New
      ensures reply.error.None? ==> Extends(old(missions), missions)
      ensures reply.error.None? && Landings(reply.requests) == 0 ==> missions == old(missions) && state == old(state)
      ensures reply.error.None? ==> forall i :: |old(missions)| <= i < |missions| ==> fresh(missions[i].Object())
      ensures state != Continuing || old(state) == Continuing
      ensures sensors == old(sensors) && connectionLost == old(connectionLost)
      ensures forall i :: 0 <= i < |missions| ==> missions[i] in old(missions) || fresh(missions[i].Object())
    {
      ghost var g := Abstract();
      ghost var before := missions;
      ApplyAll(reply.requests);
      ApplyAllPushesLandings(g, reply.requests);
      VerticalTargetKept(g, reply.requests);
      assert forall i :: 0 <= i < |before| ==> missions[i] == before[i];
      if Landings(reply.requests) == 0 {
        assert |missions| == |Abstract().stack| == |before|;
        assert missions == before;
      }
      if reply.error.Some? {
        ghost var mid := missions;
        MissionError();
        assert forall i :: 0 <= i < |missions| ==> missions[i] in mid || fresh(missions[i].Object());
      }
    }

    /**
     * One pass of the `while _flying` loop (lines 157-181). The controller runs on
     * the previous sample; an exception from it escapes `main_run`. `entry` and
     * `loop` are the replies of the mission calls.
     */
    method Tick(cycle: Cycle) returns (r: Outcome, ghost entry: Option<Reply>, ghost loop: Option<Reply>)
      requires Valid()
      modifies this, link, controller, Top().Object()
      ensures Valid()
      ensures Sound(controller.math) ==> r == Ok
      ensures old(sensors.time - controller.lastTime) > 0.0 ==>
                controller.SumState() == Controller.ControlLaw(old(controller.CacheState()), old(controller.SumState()),
                                                               old(Targets()), old(sensors), controller.math).sums
      ensures r == Ok && old(sensors.time - controller.lastTime) > 0.0 ==>
                controller.CacheState() == Controller.ControlLaw(old(controller.CacheState()), old(controller.SumState()),
                                                                 old(Targets()), old(sensors), controller.math).caches
      ensures old(sensors.time - controller.lastTime) <= 0.0 ==>
                controller.SumState() == old(controller.SumState()) && controller.CacheState() == old(controller.CacheState())
      ensures r.Raised? ==>
                && Abstract() == old(Abstract()) && missions == old(missions) && sensors == old(sensors)
                && link.input == old(link.input)
                && link.output == old(link.output) + Controller.ControlOutput(old(controller.CacheState()),
                     old(controller.SumState()), old(Targets()), old(sensors), controller.math)
      ensures r == Ok ==>
                var checked := AfterConnectionCheck(old(Abstract()), cycle.connectionUp);
                && (entry.Some? <==> EntryCall(checked.state).Some?)
                && (loop.None? <==> entry.Some? && entry.value.error.Some?)
                && Abstract() == AfterMissionCall(checked, entry, loop)
                && link.input == []
                && link.output == old(link.output) + Controller.ControlOutput(old(controller.CacheState()),
                     old(controller.SumState()), old(Targets()), old(sensors), controller.math)
                   + Writes(entry) + Writes(loop)
      ensures r == Ok && !old(connectionLost) && !cycle.connectionUp ==>
                loop == Some(LoopReply(LandingView(0.0), cycle.refresh.sample))
      ensures r == Ok && (old(connectionLost) || cycle.connectionUp) ==>
                (loop.Some? ==> loop.value == LoopReply(Entered(old(View(Top())), EntryCall(old(state)), cycle.refresh.sample), cycle.refresh.sample))
      ensures r == Ok ==> sensors == cycle.refresh.sample && state != Continuing
      ensures forall i :: 0 <= i < |missions| ==> missions[i] in old(missions) || fresh(missions[i].Object())
    {
      entry, loop := None, None;
      if Sound(controller.math) && sensors.time - controller.lastTime > 0.0 {
        Controller.CommandsAlwaysSent(controller.CacheState(), controller.SumState(), Targets(), sensors, controller.math);
      }
      ObjectIsNotController(Top(), controller);
      ObjectIsNotSupervisor(Top(), this);
      ghost var view := View(Top());
      r := controller.Control(Targets(), sensors, link);
      if r.Raised? {
        return;
      }
      assert Top() == old(Top());
      assert Top().Object() != controller && Top().Object() != link;
      assert View(Top()) == view;
      ghost var sums, caches := controller.SumState(), controller.CacheState();
      entry, loop := FollowMissions(cycle);
      assert controller.SumState() == sums && controller.CacheState() == caches;
    }

    /** Lines 158-181 of `main_run`: the connection watch, the sensor refresh and the mission calls. */
    method FollowMissions(cycle: Cycle) returns (ghost entry: Option<Reply>, ghost loop: Option<Reply>)
      requires Valid()
      modifies this, link, Top().Object()
      ensures Valid()
      ensures var checked := AfterConnectionCheck(old(Abstract()), cycle.connectionUp);
              && (entry.Some? <==> EntryCall(checked.state).Some?)
              && (loop.None? <==> entry.Some? && entry.value.error.Some?)
              && Abstract() == AfterMissionCall(checked, entry, loop)
      ensures !old(connectionLost) && !cycle.connectionUp ==>
                loop == Some(LoopReply(LandingView(0.0), cycle.refresh.sample))
      ensures old(connectionLost) || cycle.connectionUp ==>
                (loop.Some? ==> loop.value == LoopReply(Entered(old(View(Top())), EntryCall(old(state)), cycle.refresh.sample), cycle.refresh.sample))
      ensures link.output == old(link.output) + Writes(entry) + Writes(loop) && link.input == []
      ensures sensors == cycle.refresh.sample && state != Continuing
      ensures forall i :: 0 <= i < |missions| ==> missions[i] in old(missions) || fresh(missions[i].Object())
    {
      ObjectIsNotSupervisor(Top(), this);
      Watch(cycle);
      ghost var checked := missions;
      ghost var target: Mission;
      entry, loop, target := RunMission();
      assert forall i :: 0 <= i < |missions| ==> missions[i] in checked || fresh(missions[i].Object());
    }

    /** Lines 158-167 of `main_run`: the connection watch, then the sensor refresh. */
    method Watch(cycle: Cycle)
      requires Valid()
      modifies this, link
      ensures Valid()
      ensures Abstract() == AfterConnectionCheck(old(Abstract()), cycle.connectionUp)
      ensures !old(connectionLost) && !cycle.connectionUp ==>
                fresh(Top().Object()) && Top().Emergency? && Top().e.lowTime == 0.0 && state == New
      ensures old(connectionLost) || cycle.connectionUp ==> missions == old(missions) && state == old(state)
      ensures link.output == old(link.output) && link.input == []
      ensures sensors == cycle.refresh.sample
      ensures forall i :: 0 <= i < |missions| ==> missions[i] in old(missions) || fresh(missions[i].Object())
    {
      CheckConnection(cycle.connectionUp);
      var _ := RefreshSensors(cycle.refresh);
    }

    /**
     * Lines 143-151 of `main_run`: a fresh sample, then `start_mission` and
     * `loop_run` on the base mission. Neither call raises for the missions
     * modelled here; one that did would end the flight (`ApplyFirst`).
     */
    method StartFirstMission(refresh: Refresh) returns (ghost start: Reply, ghost loop: Reply)
      requires Valid()
      modifies this, link, Top().Object()
      ensures Valid()
      ensures start == EntryReply(old(Top()), StartMission) && start.error.None? && loop.error.None?
      ensures loop == LoopReply(Entered(old(View(Top())), Some(StartMission), refresh.sample), refresh.sample)
      ensures Abstract() == AfterRequests(AfterRequests(old(Abstract()), start.requests).(state := Running), loop.requests)
      ensures link.output == old(link.output) + ArmWrites(start.requests) + ArmWrites(loop.requests) && link.input == []
      ensures sensors == refresh.sample && connectionLost == old(connectionLost)
      ensures forall i :: 0 <= i < |missions| ==> missions[i] in old(missions) || fresh(missions[i].Object())
    {
      ObjectIsNotSupervisor(Top(), this);
      ghost var view := View(Top());
      var _ := RefreshSensors(refresh);
      assert Top() == old(Top()) && View(Top()) == view;
      start := FirstStart();
      loop := FirstLoop();
    }

    /**
     * Lines 147-148 of `main_run`: the state becomes RUNNING and `loop_run` is
     * called on the base mission with the current sample; its calls are carried out.
     */
    method FirstLoop() returns (reply: Reply)
      requires Valid()
      modifies this, link, Top().Object()
      ensures Valid()
      ensures reply == LoopReply(old(View(Top())), sensors) && reply.error.None?
      ensures Abstract() == AfterRequests(old(Abstract()).(state := Running), reply.requests)
      ensures link.output == old(link.output) + ArmWrites(reply.requests) && link.input == old(link.input)
      ensures sensors == old(sensors) && connectionLost == old(connectionLost)
      ensures forall i :: 0 <= i < |missions| ==> missions[i] in old(missions) || fresh(missions[i].Object())
    {
      state := Running;
      ObjectIsNotSupervisor(Top(), this);
      reply := Invoke(Top(), LoopRun, sensors);
      var _ := ApplyFirst(reply);
    }

    /**
     * Line 146 of `main_run`: `start_mission` on the base mission and its calls
     * carried out. It does not raise, the mission stays on top, and its
     * `loop_run` on the same sample replies as after a start.
     */
    method FirstStart() returns (reply: Reply)
      requires Valid()
      modifies this, link, Top().Object()
      ensures Valid()
      ensures reply == EntryReply(old(Top()), StartMission) && reply.error.None?
      ensures missions == old(missions) && View(Top()) == Entered(old(View(Top())), Some(StartMission), sensors)
      ensures Abstract() == AfterRequests(old(Abstract()), reply.requests)
      ensures link.output == old(link.output) + ArmWrites(reply.requests) && link.input == old(link.input)
      ensures sensors == old(sensors) && connectionLost == old(connectionLost)
    {
      ObjectIsNotSupervisor(Top(), this);
      reply := Invoke(Top(), StartMission, sensors);
      ghost var before := missions;
      NoLandingRequested(reply.requests);
      var _ := ApplyFirst(reply);
      assert missions == before;
    }

    /** The calls of a reply during the first start; an exception ends the flight. */
    method ApplyFirst(reply: Reply) returns (ok: bool)
      requires Valid()
      modifies this, link
      ensures Valid()
      ensures ok <==> reply.error.None?
      ensures Extends(old(missions), missions)
      ensures Landings(reply.requests) == 0 ==> missions == old(missions)
      ensures forall i :: |old(missions)| <= i < |missions| ==> fresh(missions[i].Object())
      ensures Abstract() == AfterRequests(old(Abstract()), reply.requests).(flying := ok && AfterRequests(old(Abstract()), reply.requests).flying)
      ensures link.output == old(link.output) + ArmWrites(reply.requests) && link.input == old(link.input)
      ensures sensors == old(sensors) && connectionLost == old(connectionLost)
      ensures forall i :: 0 <= i < |missions| ==> missions[i] in old(missions) || fresh(missions[i].Object())
    {
      ghost var g := Abstract();
      ghost var before := missions;
      ApplyAll(reply.requests);
      ApplyAllPushesLandings(g, reply.requests);
      VerticalTargetKept(g, reply.requests);
      assert forall i :: 0 <= i < |before| ==> missions[i] == before[i];
      if Landings(reply.requests) == 0 {
        assert |missions| == |Abstract().stack| == |before|;
        assert missions == before;
      }
      ok := reply.error.None?;
      if !ok {
        flying := false;
      }
    }

    /**
     * Lines 124-131 of `main_run`: the hop in place as base mission, `copter.init`
     * (the Arduino handshake, whose failure escapes, then a first sensor refresh
     * with `start`), the heading setpoint from that sample and `controller.init`.
     */
    method Setup(start: Telemetry) returns (init: Outcome)
      requires missions == [] && flying && HasVerticalTarget(Targets())
      modifies this, link, controller
      ensures init == FlightCommands.Handshake(old(link.input)).outcome
      ensures Valid() && flying && Kinds(missions) == [HopKind] && fresh(Top().Object())
      ensures init == Ok ==> link.input == [] && link.output == old(link.output) + FlightCommands.Handshake(old(link.input)).written
      ensures init == Ok ==> sensors == start && heading == start.heading
      ensures init == Ok ==>
                && controller.CacheState() == old(controller.CacheState()).(time := start.time, heading := start.heading)
                && controller.SumState() == old(controller.SumState())
    {
      var hop := new HopInPlace.HopInPlaceMission(1.5, 6.0, 0.5, 0.2);
      var _ := AppendMission(IsMission(Hop(hop)));
      init := FlightCommands.Init(link);
      if init.Raised? {
        return;
      }
      var _ := RefreshSensors(Refresh(start, []));
      heading := sensors.heading;
      controller.Init(sensors);
    }

    /**
     * Lines 124-151 of `main_run`: the set-up, then, with a connection, the
     * first start on the sample `first`; without one the loop never runs.
     */
    method Boot(start: Telemetry, connected: bool, first: Refresh) returns (init: Outcome)
      requires missions == [] && flying && HasVerticalTarget(Targets())
      modifies this, link, controller
      ensures init == FlightCommands.Handshake(old(link.input)).outcome
      ensures init.Raised? ==> flying
      ensures init == Ok ==> Valid() && link.input == []
      ensures init == Ok ==> forall i :: 0 <= i < |missions| ==> fresh(missions[i].Object())
      ensures init == Ok && !connected ==> !flying && Kinds(missions) == [HopKind]
      ensures init == Ok && connected ==> sensors == first.sample
    {
      init := Setup(start);
      if init.Raised? {
        return;
      }
      if !connected {
        flying := false;
      } else {
        ghost var base := missions;
        ghost var s, l := StartFirstMission(first);
        assert forall i :: 0 <= i < |missions| ==> missions[i] in base || fresh(missions[i].Object());
      }
    }

    /**
     * `main_run` over a finite run of cycles: the hop in place as base mission,
     * `copter.init` (the Arduino handshake, whose failure escapes, and the first
     * sensor refresh with `start`), the heading setpoint and the controller from
     * that sample, the connection check, the first start, the loop while flying,
     * and the shutdown. `passes` holds `_flying` after each pass of the loop.
     */
    method MainRun(start: Telemetry, connected: bool, first: Refresh, cycles: seq<Cycle>)
      returns (end: RunEnd, ghost passes: seq<bool>)
      requires missions == [] && flying && HasVerticalTarget(Targets())
      modifies this, link, controller
      ensures var h := FlightCommands.Handshake(old(link.input));
              h.outcome.Raised? ==> end == Crashed(h.outcome.error)
      ensures end == ShutDown <==> !flying
      ensures end == ShutDown ==> exists prefix :: link.output == prefix + FlightCommands.NEUTRAL + [FlightCommands.DISARM]
      ensures end.Crashed? && Sound(controller.math) ==> FlightCommands.Handshake(old(link.input)).outcome == Raised(end.error)
      ensures !connected && FlightCommands.Handshake(old(link.input)).outcome == Ok ==>
                end == ShutDown && Kinds(missions) == [HopKind] && passes == []
      ensures FlightCommands.Handshake(old(link.input)).outcome == Ok ==> link.input == []
      ensures |passes| <= |cycles|
      ensures forall i :: 0 <= i < |passes| - 1 ==> passes[i]
      ensures end == ShutDown && passes != [] ==> !passes[|passes| - 1]
      ensures end == InputExhausted ==> |passes| == |cycles| && forall i :: 0 <= i < |passes| ==> passes[i]
    {
      passes := [];
      var init := Boot(start, connected, first);
      if init.Raised? {
        return Crashed(init.error), passes;
      }
      assert forall o :: o in MissionObjects() ==> fresh(o);
      end, passes := FlyAndStop(cycles);
    }

    /**
     * Lines 153-185 of `main_run`: the loop while flying and, once it ends,
     * the shutdown; an exception from `control` escapes instead.
     */
    method FlyAndStop(cycles: seq<Cycle>) returns (end: RunEnd, ghost passes: seq<bool>)
      requires Valid() && link.input == []
      modifies this, link, controller, MissionObjects()
      ensures end == ShutDown <==> !flying
      ensures end == ShutDown ==> exists prefix :: link.output == prefix + FlightCommands.NEUTRAL + [FlightCommands.DISARM]
      ensures end.Crashed? ==> !Sound(controller.math)
      ensures !old(flying) ==> end == ShutDown && passes == [] && Kinds(missions) == old(Kinds(missions))
      ensures link.input == []
      ensures |passes| <= |cycles|
      ensures forall i :: 0 <= i < |passes| - 1 ==> passes[i]
      ensures end == ShutDown && passes != [] ==> !passes[|passes| - 1]
      ensures end == InputExhausted ==> |passes| == |cycles| && forall i :: 0 <= i < |passes| ==> passes[i]
    {
      var crash: Option<Error>;
      crash, passes := Fly(cycles);
      if crash.Some? {
        return Crashed(crash.value), passes;
      }
      if flying {
        return InputExhausted, passes;
      }
      FlightCommands.StopAll(link);
      end := ShutDown;
    }

    /** The objects of the missions on the stack. */
    ghost function MissionObjects(): set<object>
      reads this
    {
      set i | 0 <= i < |missions| :: missions[i].Object()
    }

    /**
     * Lines 153-181 of `main_run`: the `while _flying` loop over the modelled
     * cycles, up to an exception from `control`. `passes` holds `_flying` after
     * each pass, so `control` only ever runs while flying.
     */
    method Fly(cycles: seq<Cycle>) returns (crash: Option<Error>, ghost passes: seq<bool>)
      requires Valid() && link.input == []
      modifies this, link, controller, MissionObjects()
      ensures link.input == []
      ensures crash.Some? ==> flying && !Sound(controller.math)
      ensures crash.None? && flying ==> |passes| == |cycles|
      ensures |passes| <= |cycles|
      ensures forall i :: 0 <= i < |passes| - 1 ==> passes[i]
      ensures passes != [] ==> passes[|passes| - 1] == flying
      ensures !old(flying) ==> crash.None? && passes == [] && !flying && Kinds(missions) == old(Kinds(missions))
    {
      crash, passes := None, [];
      var k := 0;
      while k < |cycles| && flying
        invariant 0 <= k <= |cycles| && |passes| == k
        invariant Valid() && link.input == []
        invariant !old(flying) ==> passes == [] && !flying && Kinds(missions) == old(Kinds(missions))
        invariant forall i :: 0 <= i < |passes| - 1 ==> passes[i]
        invariant passes != [] ==> passes[|passes| - 1] == flying
        invariant forall i :: 0 <= i < |missions| ==> missions[i].Object() in old(MissionObjects()) || fresh(missions[i].Object())
      {
        assert forall i :: 0 <= i < |passes| ==> passes[i];
        var r: Outcome;
        ghost var entry: Option<Reply>, loop: Option<Reply>;
        ghost var before := missions;
        r, entry, loop := Tick(cycles[k]);
        assert forall i :: 0 <= i < |missions| ==> missions[i] in before || fresh(missions[i].Object());
        if r.Raised? {
          return Some(r.error), passes;
        }
        passes := passes + [flying];
        k := k + 1;
      }
    }
  }
}
