/**
 * The PID controller of control/controller.py. Each call of `control` turns the
 * setpoints and one telemetry sample into four stick positions (throttle, yaw,
 * pitch, roll, each a percentage) and sends them with the axis commands of
 * `FlightCommands`. The module globals of the source (the last-sample caches
 * `_last_*` and the integrators `_err_sum_*`) are the fields of `Controller`.
 *
 * `ControlLaw` states what one call computes; `Controller.Control` does it step
 * by step, as the source does, and is proved to agree with it.
 */
module Controller {
  import opened Common
  import opened FlightCommands

  // Gains and scale factors, as the source defines them.
  const HEIGHT_SCALE: real := 10.0
  const KP_HEIGHT: real := 1.0
  const KI_HEIGHT: real := 0.08
  const KD_HEIGHT: real := 0.8

  /** 0.1 / (PI / 2), written with the numeral so that the solver sees a constant. */
  const HEADING_SCALE: real := 0.1 / (3.141592653589793 / 2.0)
  const KP_HEADING: real := 1.0
  const KI_HEADING: real := 0.1
  const KD_HEADING: real := 0.1

  const HORIZ_SCALE: real := 100.0 / 5.0
  const KP_HORIZ: real := 1.0
  const KI_HORIZ: real := 0.1
  const KD_HORIZ: real := 0.1

  const CLIMB_SCALE: real := 10.0
  const KP_CLIMB: real := 1.0
  /** Declared by the source but never used: climb-rate mode integrates with `KI_HEIGHT`. */
  const KI_CLIMB: real := 0.1
  const KD_CLIMB: real := 0.1

  /** The last samples `control` saw: `_last_time`, `_last_heading`, `_last_horiz_speed`, `_last_climb_rate`. */
  datatype Caches = Caches(time: real, heading: real, horizSpeed: Vec2, climbRate: real)

  /** The integrators `_err_sum_height`, `_err_sum_heading`, `_err_sum_horiz`, `_err_sum_climb_rate`. */
  datatype Sums = Sums(height: real, heading: real, horiz: Vec2, climbRate: real)

  /** The four percentages one call sends. */
  datatype Command = Command(throttle: real, yaw: real, pitch: real, roll: real)

  /** What one call with a positive time step computes. */
  datatype Step = Step(command: Command, sums: Sums, caches: Caches)

  // ---------------------------------------------------------------------------
  // Saturation with a back-calculated integrator

  datatype Saturated = Saturated(output: real, integral: real)

  /**
   * One clamped PID channel: the output `50 + (pd + integral) * scale` is clamped
   * to [0, 100]; when it clamps, the integrator is first reset so that
   * `50 + (pd + integral) * backScale` sits exactly on the bound, and in every
   * case it then advances by `increment`.
   */
  function Saturate(pd: real, integral: real, scale: real, backScale: real, increment: real): (r: Saturated)
    requires backScale > 0.0
    ensures 0.0 <= r.output <= 100.0
    ensures var raw := 50.0 + (pd + integral) * scale;
            && (0.0 < raw < 100.0 ==> r.output == raw && r.integral == integral + increment)
            && (raw >= 100.0 ==> r.output == 100.0)
            && (raw <= 0.0 ==> r.output == 0.0)
  {
    var raw := 50.0 + (pd + integral) * scale;
    if raw >= 100.0 then Saturated(100.0, 50.0 / backScale - pd + increment)
    else if raw <= 0.0 then Saturated(0.0, -50.0 / backScale - pd + increment)
    else Saturated(raw, integral + increment)
  }

  /**
   * After a clamp, the integrator before its advance by `increment` puts
   * `50 + (pd + integral) * backScale` exactly on the bound that was hit.
   */
  lemma SaturateBackCalculation(pd: real, integral: real, scale: real, backScale: real, increment: real)
    requires backScale > 0.0
    ensures var r := Saturate(pd, integral, scale, backScale, increment);
            var raw := 50.0 + (pd + integral) * scale;
            && (raw >= 100.0 ==> 50.0 + (pd + (r.integral - increment)) * backScale == 100.0)
            && (raw <= 0.0 ==> 50.0 + (pd + (r.integral - increment)) * backScale == 0.0)
  {
    var r := Saturate(pd, integral, scale, backScale, increment);
    var raw := 50.0 + (pd + integral) * scale;
    if raw >= 100.0 {
      assert r.integral == 50.0 / backScale - pd + increment;
      BackCalculated(pd, r.integral, increment, backScale, 50.0);
    } else if raw <= 0.0 {
      assert r.integral == -50.0 / backScale - pd + increment;
      BackCalculated(pd, r.integral, increment, backScale, -50.0);
    }
  }

  /** An integrator reset to `offset / backScale - pd` and then advanced by `increment`. */
  lemma BackCalculated(pd: real, integral: real, increment: real, backScale: real, offset: real)
    requires backScale > 0.0
    requires integral == offset / backScale - pd + increment
    ensures 50.0 + (pd + (integral - increment)) * backScale == 50.0 + offset
  {
    assert pd + (integral - increment) == offset / backScale;
  }

  /**
   * The yaw channel back-calculates with the height scale factor, so after a
   * clamp its integrator does not put the yaw output on the bound: it lands
   * just above the centre instead.
   */
  lemma HeadingBackCalculationMissesBound(pd: real, integral: real, increment: real)
    requires 50.0 + (pd + integral) * HEADING_SCALE >= 100.0
    ensures var r := Saturate(pd, integral, HEADING_SCALE, HEIGHT_SCALE, increment);
            50.0 < 50.0 + (pd + (r.integral - increment)) * HEADING_SCALE < 51.0
  {
    var r := Saturate(pd, integral, HEADING_SCALE, HEIGHT_SCALE, increment);
    SaturateBackCalculation(pd, integral, HEADING_SCALE, HEIGHT_SCALE, increment);
    assert pd + (r.integral - increment) == 5.0;
  }

  // ---------------------------------------------------------------------------
  // Heading wrap

  /** Brings an angle difference back by one turn when its magnitude exceeds pi. */
  function Wrap(x: real): (r: real)
    ensures r == x || r == x - 2.0 * PI || r == x + 2.0 * PI
    ensures -PI <= x <= PI ==> r == x
    ensures -3.0 * PI < x < 3.0 * PI ==> -PI <= r <= PI
  {
    if Abs(x) > PI then x - Sign(x) * 2.0 * PI else x
  }

  /** Two headings in [0, 2 pi) are never more than pi apart after the wrap. */
  lemma WrappedHeadingError(target: real, current: real)
    requires 0.0 <= target < 2.0 * PI && 0.0 <= current < 2.0 * PI
    ensures -PI <= Wrap(target - current) <= PI
    ensures Wrap(target - current) == target - current
            || Wrap(target - current) == target - current - 2.0 * PI
            || Wrap(target - current) == target - current + 2.0 * PI
  {
  }

  /** A concrete wrap: from 350 degrees to 10 degrees the error is +20 degrees, not -340. */
  lemma WrapAcrossNorth()
    ensures Wrap(10.0 / 180.0 * PI - 350.0 / 180.0 * PI) == 20.0 / 180.0 * PI
  {
  }

  // ---------------------------------------------------------------------------
  // Horizontal speed

  /** `np.multiply((cos(angle), sin(angle)), speed)`: a velocity from a direction and a speed. */
  function Velocity(angle: real, speed: real, m: MathLib): Vec2 {
    Vec2(m.cos(angle), m.sin(angle)).Times(speed)
  }

  /** The horizontal PID sum before the cap, scaled to percent. */
  function ScaledHorizontal(error: Vec2, acc: Vec2, integral: Vec2): Vec2 {
    error.Times(KP_HORIZ).Minus(acc.Times(KD_HORIZ)).Plus(integral).Times(HORIZ_SCALE)
  }

  datatype Horizontal = Horizontal(command: Vec2, integral: Vec2)

  /**
   * The horizontal channel: a scaled vector of magnitude 50 or more is shrunk to
   * magnitude 50 and the integrator is held; otherwise the vector is sent as it
   * is and the integrator advances by the vector times `KI_HORIZ`.
   */
  function HorizontalCommand(error: Vec2, acc: Vec2, integral: Vec2, sqrt: real -> real): (r: Horizontal)
    ensures r.integral == integral || r.command == ScaledHorizontal(error, acc, integral)
    ensures r.integral != integral ==> r.integral == integral.Plus(r.command.Times(KI_HORIZ))
  {
    var scaled := ScaledHorizontal(error, acc, integral);
    var magnitude := sqrt(scaled.Norm2());
    if magnitude >= 50.0 then Horizontal(scaled.Times(50.0 / magnitude), integral)
    else Horizontal(scaled, integral.Plus(scaled.Times(KI_HORIZ)))
  }

  /**
   * With a true square root the horizontal command never exceeds magnitude 50:
   * a vector of magnitude 50 or more keeps its direction and is shrunk to exactly
   * 50 while the integrator holds; a shorter one is sent unchanged.
   */
  lemma HorizontalCap(error: Vec2, acc: Vec2, integral: Vec2, sqrt: real -> real)
    requires SquareRoot(sqrt)
    ensures var s := ScaledHorizontal(error, acc, integral);
            var magnitude := sqrt(s.Norm2());
            var r := HorizontalCommand(error, acc, integral, sqrt);
            && r.command.Norm2() <= 2500.0
            && (magnitude >= 50.0 <==> s.Norm2() >= 2500.0)
            && (magnitude >= 50.0 ==>
                  && r.integral == integral
                  && r.command.Norm2() == 2500.0
                  && r.command == s.Times(50.0 / magnitude)
                  && 0.0 < 50.0 / magnitude <= 1.0)
            && (magnitude < 50.0 ==>
                  r.command == s && r.integral == integral.Plus(s.Times(KI_HORIZ)))
  {
    var s := ScaledHorizontal(error, acc, integral);
    var magnitude := sqrt(s.Norm2());
    assert 0.0 <= magnitude && magnitude * magnitude == s.Norm2();
    CapArithmetic(s, magnitude);
  }

  /** The arithmetic of the cap, for a vector `s` whose magnitude is `mag`. */
  lemma CapArithmetic(s: Vec2, mag: real)
    requires 0.0 <= mag && mag * mag == s.Norm2()
    ensures mag >= 50.0 <==> s.Norm2() >= 2500.0
    ensures mag >= 50.0 ==> 0.0 < 50.0 / mag <= 1.0 && s.Times(50.0 / mag).Norm2() == 2500.0
    ensures mag < 50.0 ==> s.Norm2() < 2500.0
  {
    if mag >= 50.0 {
      SquareAtMost(50.0, mag);
      var k := 50.0 / mag;
      assert k * mag == 50.0;
      var c := s.Times(k);
      assert c.x * c.x == (k * k) * (s.x * s.x);
      assert c.y * c.y == (k * k) * (s.y * s.y);
      assert c.Norm2() == (k * k) * (mag * mag);
      assert (k * k) * (mag * mag) == (k * mag) * (k * mag);
    } else {
      SquareBelow(mag, 50.0);
    }
  }

  // ---------------------------------------------------------------------------
  // Body frame

  datatype Tilt = Tilt(pitch: real, roll: real)

  /** Turns the horizontal command into pitch and roll around the centre 50 with the current heading. */
  function BodyFrame(command: Vec2, heading: real, m: MathLib): Tilt {
    Tilt(command.x * m.cos(heading) + command.y * m.sin(heading) + 50.0,
         command.x * m.sin(heading) + command.y * m.cos(heading) + 50.0)
  }

  /** The dot product of a vector of magnitude at most 50 with a unit vector lies in [-50, 50]. */
  lemma UnitProjection(a: real, b: real, c: real, s: real)
    requires c * c + s * s == 1.0
    requires a * a + b * b <= 2500.0
    ensures -50.0 <= a * c + b * s <= 50.0
  {
    var t := a * c + b * s;
    var u := a * s - b * c;
    assert t * t + u * u == (a * a + b * b) * (c * c + s * s);
    assert t * t <= 2500.0 by {
      assert u * u >= 0.0;
    }
    if t > 50.0 {
      SquareBelow(50.0, t);
    } else if t < -50.0 {
      SquareBelow(50.0, -t);
    }
  }

  /**
   * Pitch and roll are not clamped by the source, but with a true sine and cosine
   * and a capped horizontal command they stay within [0, 100].
   */
  lemma BodyFrameInRange(command: Vec2, heading: real, m: MathLib)
    requires UnitCircle(m)
    requires command.Norm2() <= 2500.0
    ensures 0.0 <= BodyFrame(command, heading, m).pitch <= 100.0
    ensures 0.0 <= BodyFrame(command, heading, m).roll <= 100.0
  {
    var c, s := m.cos(heading), m.sin(heading);
    assert s * s + c * c == 1.0;
    UnitProjection(command.x, command.y, c, s);
    UnitProjection(command.x, command.y, s, c);
  }

  // ---------------------------------------------------------------------------
  // Sending

  /**
   * The axis commands sent in order; the first one that raises stops the rest,
   * after writing its marker byte.
   */
  function SendInOrder(axes: seq<(byte, real)>): (r: Sent)
    ensures r.outcome == Ok <==> forall i :: 0 <= i < |axes| ==> -0.5 < axes[i].1 < 128.0
    ensures r.outcome == Ok ==> |r.bytes| == 2 * |axes|
    ensures r.outcome != Ok ==> r.outcome == Raised(OverflowError)
    decreases |axes|
  {
    if axes == [] then Sent([], Ok)
    else
      var first := AxisFrame(axes[0].0, axes[0].1);
      if first.outcome != Ok then first
      else
        var rest := SendInOrder(axes[1..]);
        assert forall i :: 1 <= i < |axes| ==> axes[i] == axes[1..][i - 1];
        Sent(first.bytes + rest.bytes, rest.outcome)
  }

  /** Throttle first, then yaw, pitch and roll. */
  function Transmit(c: Command): Sent {
    SendInOrder([(THROTTLE, c.throttle), (YAW, c.yaw), (PITCH, c.pitch), (ROLL, c.roll)])
  }

  /** Throttle and yaw are clamped, so their frames always go out; only pitch or roll can raise. */
  lemma ThrottleAndYawAlwaysSent(c: Command)
    requires 0.0 <= c.throttle <= 100.0 && 0.0 <= c.yaw <= 100.0
    ensures |Transmit(c).bytes| >= 4
    ensures Transmit(c).bytes[..4] == AxisFrame(THROTTLE, c.throttle).bytes + AxisFrame(YAW, c.yaw).bytes
    ensures Transmit(c).outcome == Ok <==> -0.5 < c.pitch < 128.0 && -0.5 < c.roll < 128.0
  {
    PercentFrameInRange(THROTTLE, c.throttle);
    PercentFrameInRange(YAW, c.yaw);
    TransmitUnfolds(c);
    var t, y := AxisFrame(THROTTLE, c.throttle).bytes, AxisFrame(YAW, c.yaw).bytes;
    var tail := Transmit(c).bytes[4..];
    assert Transmit(c).bytes == t + y + tail;
  }

  /** One step of `SendInOrder`. */
  lemma SendInOrderCons(axis: (byte, real), rest: seq<(byte, real)>)
    ensures var first := AxisFrame(axis.0, axis.1);
            SendInOrder([axis] + rest)
            == if first.outcome != Ok then first
               else Sent(first.bytes + SendInOrder(rest).bytes, SendInOrder(rest).outcome)
  {
    assert ([axis] + rest)[1..] == rest;
  }

  /** `Transmit` spelled out frame by frame, as `Control` sends them. */
  lemma TransmitUnfolds(c: Command)
    ensures var t, y, p, l := AxisFrame(THROTTLE, c.throttle), AxisFrame(YAW, c.yaw),
                              AxisFrame(PITCH, c.pitch), AxisFrame(ROLL, c.roll);
            Transmit(c) ==
              if t.outcome != Ok then t
              else if y.outcome != Ok then Sent(t.bytes + y.bytes, y.outcome)
              else if p.outcome != Ok then Sent(t.bytes + y.bytes + p.bytes, p.outcome)
              else Sent(t.bytes + y.bytes + p.bytes + l.bytes, l.outcome)
  {
    var t, y, p, l := (THROTTLE, c.throttle), (YAW, c.yaw), (PITCH, c.pitch), (ROLL, c.roll);
    SendInOrderCons(l, []);
    assert [l] + [] == [l];
    SendInOrderCons(p, [l]);
    SendInOrderCons(y, [p, l]);
    SendInOrderCons(t, [y, p, l]);
    assert [t] + [y, p, l] == [t, y, p, l];
    assert [y] + [p, l] == [y, p, l];
    assert [p] + [l] == [p, l];
    assert AxisFrame(ROLL, c.roll).bytes + [] == AxisFrame(ROLL, c.roll).bytes;
  }

  // ---------------------------------------------------------------------------
  // One call of `control`

  /**
   * The throttle channel: height mode when a target height is set, climb-rate
   * mode otherwise. Both integrate with `KI_HEIGHT`.
   */
  function VerticalChannel(c: Caches, s: Sums, sp: Setpoints, tel: Telemetry): (r: Saturated)
    requires tel.time - c.time > 0.0
    requires sp.height.Some? || sp.climbRate.Some?
    ensures 0.0 <= r.output <= 100.0
  {
    if sp.height.Some? then
      var error := sp.height.value - tel.height;
      Saturate(error * KP_HEIGHT - tel.climbRate * KD_HEIGHT, s.height, HEIGHT_SCALE, HEIGHT_SCALE,
               error * KI_HEIGHT)
    else
      var acc := (tel.climbRate - c.climbRate) / (tel.time - c.time);
      var error := sp.climbRate.value - tel.climbRate;
      Saturate(error * KP_CLIMB - acc * KD_CLIMB, s.climbRate, CLIMB_SCALE, CLIMB_SCALE,
               error * KI_HEIGHT)
  }

  /** The yaw channel, on the wrapped heading error and the wrapped turn rate. */
  function YawChannel(c: Caches, s: Sums, sp: Setpoints, tel: Telemetry): (r: Saturated)
    requires tel.time - c.time > 0.0
    ensures 0.0 <= r.output <= 100.0
  {
    var headingRate := Wrap(tel.heading - c.heading) / (tel.time - c.time);
    var headingError := Wrap(sp.heading - tel.heading);
    Saturate(headingError * KP_HEADING - headingRate * KD_HEADING, s.heading,
             HEADING_SCALE, HEIGHT_SCALE, headingError * KI_HEADING)
  }

  /** The horizontal channel, on the error current minus target velocity. */
  function HorizontalChannel(c: Caches, s: Sums, sp: Setpoints, tel: Telemetry, m: MathLib): Horizontal
    requires tel.time - c.time > 0.0
  {
    var current := Velocity(tel.track, tel.speed, m);
    var target := Velocity(sp.course, sp.speed, m);
    HorizontalCommand(current.Minus(target), current.Minus(c.horizSpeed).Times(1.0 / (tel.time - c.time)),
                      s.horiz, m.sqrt)
  }

  /**
   * What one call of `control` computes from the caches, the integrators, the
   * setpoints and the current sample, when time has advanced since the last call.
   * Height mode takes precedence over climb-rate mode.
   */
  function ControlLaw(c: Caches, s: Sums, sp: Setpoints, tel: Telemetry, m: MathLib): (r: Step)
    requires tel.time - c.time > 0.0
    requires sp.height.Some? || sp.climbRate.Some?
    ensures 0.0 <= r.command.throttle <= 100.0 && 0.0 <= r.command.yaw <= 100.0
    ensures r.caches == Caches(tel.time, tel.heading, Velocity(tel.track, tel.speed, m), tel.climbRate)
    ensures sp.height.Some? ==> r.sums.climbRate == s.climbRate
    ensures sp.height.None? ==> r.sums.height == s.height
  {
    var vertical := VerticalChannel(c, s, sp, tel);
    var yaw := YawChannel(c, s, sp, tel);
    var horizontal := HorizontalChannel(c, s, sp, tel, m);
    var tilt := BodyFrame(horizontal.command, tel.heading, m);
    Step(Command(vertical.output, yaw.output, tilt.pitch, tilt.roll),
         Sums(if sp.height.Some? then vertical.integral else s.height,
              yaw.integral,
              horizontal.integral,
              if sp.height.Some? then s.climbRate else vertical.integral),
         Caches(tel.time, tel.heading, Velocity(tel.track, tel.speed, m), tel.climbRate))
  }

  /** With height set, the climb-rate setpoint has no influence on anything `control` computes. */
  lemma HeightModePrecedence(c: Caches, s: Sums, sp: Setpoints, tel: Telemetry, m: MathLib, climbRate: Option<real>)
    requires tel.time - c.time > 0.0
    requires sp.height.Some?
    ensures ControlLaw(c, s, sp, tel, m) == ControlLaw(c, s, sp.(climbRate := climbRate), tel, m)
  {
    var sp' := sp.(climbRate := climbRate);
    assert VerticalChannel(c, s, sp, tel) == VerticalChannel(c, s, sp', tel);
    assert YawChannel(c, s, sp, tel) == YawChannel(c, s, sp', tel);
    assert HorizontalChannel(c, s, sp, tel, m) == HorizontalChannel(c, s, sp', tel, m);
  }

  /**
   * While the vertical channel does not clamp, its integrator advances by the
   * error times `KI_HEIGHT` in both modes: climb-rate mode borrows the height
   * factor rather than `KI_CLIMB`.
   */
  lemma VerticalIntegratorFactor(c: Caches, s: Sums, sp: Setpoints, tel: Telemetry, m: MathLib)
    requires tel.time - c.time > 0.0
    requires sp.height.Some? || sp.climbRate.Some?
    requires 0.0 < VerticalChannel(c, s, sp, tel).output < 100.0
    ensures sp.height.Some? ==>
              ControlLaw(c, s, sp, tel, m).sums.height == s.height + (sp.height.value - tel.height) * KI_HEIGHT
    ensures sp.height.None? ==>
              ControlLaw(c, s, sp, tel, m).sums.climbRate
              == s.climbRate + (sp.climbRate.value - tel.climbRate) * KI_HEIGHT
  {
  }

  /**
   * With a true sine, cosine and square root every stick position lies in
   * [0, 100], so all four commands are sent and none raises.
   */
  lemma CommandsAlwaysSent(c: Caches, s: Sums, sp: Setpoints, tel: Telemetry, m: MathLib)
    requires Sound(m)
    requires tel.time - c.time > 0.0
    requires sp.height.Some? || sp.climbRate.Some?
    ensures var cmd := ControlLaw(c, s, sp, tel, m).command;
            && 0.0 <= cmd.pitch <= 100.0 && 0.0 <= cmd.roll <= 100.0
            && Transmit(cmd).outcome == Ok && |Transmit(cmd).bytes| == 8
  {
    var current := Velocity(tel.track, tel.speed, m);
    var target := Velocity(sp.course, sp.speed, m);
    var acc := current.Minus(c.horizSpeed).Times(1.0 / (tel.time - c.time));
    var horizontal := HorizontalChannel(c, s, sp, tel, m);
    assert horizontal == HorizontalCommand(current.Minus(target), acc, s.horiz, m.sqrt);
    HorizontalCap(current.Minus(target), acc, s.horiz, m.sqrt);
    BodyFrameInRange(horizontal.command, tel.heading, m);
    var cmd := ControlLaw(c, s, sp, tel, m).command;
    assert Tilt(cmd.pitch, cmd.roll) == BodyFrame(horizontal.command, tel.heading, m);
    ThrottleAndYawAlwaysSent(cmd);
  }

  /** The bytes one call of `control` writes: none unless time has advanced since the last call. */
  function ControlOutput(c: Caches, s: Sums, sp: Setpoints, tel: Telemetry, m: MathLib): seq<byte>
    requires sp.height.Some? || sp.climbRate.Some?
  {
    if tel.time - c.time > 0.0 then Transmit(ControlLaw(c, s, sp, tel, m).command).bytes else []
  }

  /** Lines 136-140 of `control`: throttle, yaw, pitch, roll, stopping at the first that raises. */
  method Send(link: Serial, c: Command) returns (r: Outcome)
    modifies link
    ensures r == Transmit(c).outcome
    ensures link.output == old(link.output) + Transmit(c).bytes && link.input == old(link.input)
  {
    TransmitUnfolds(c);
    r := Throttle(link, c.throttle);
    if r != Ok {
      return;
    }
    r := Yaw(link, c.yaw);
    if r != Ok {
      return;
    }
    r := Pitch(link, c.pitch);
    if r != Ok {
      return;
    }
    r := Roll(link, c.roll);
  }

  // ---------------------------------------------------------------------------
  // The controller's state

  /** The module state of control/controller.py. */
  class Controller {
    /** numpy. */
    const math: MathLib

    var lastTime: real
    var lastHeading: real
    var lastHorizSpeed: Vec2
    var lastClimbRate: real

    var sumHeight: real
    var sumHeading: real
    var sumHoriz: Vec2
    var sumClimbRate: real

    function CacheState(): Caches
      reads this
    {
      Caches(lastTime, lastHeading, lastHorizSpeed, lastClimbRate)
    }

    function SumState(): Sums
      reads this
    {
      Sums(sumHeight, sumHeading, sumHoriz, sumClimbRate)
    }

    /** The module's initial values: everything zero. */
    constructor (math: MathLib)
      ensures this.math == math
      ensures CacheState() == Caches(0.0, 0.0, Vec2(0.0, 0.0), 0.0)
      ensures SumState() == Sums(0.0, 0.0, Vec2(0.0, 0.0), 0.0)
    {
      this.math := math;
      lastTime, lastHeading, lastHorizSpeed, lastClimbRate := 0.0, 0.0, Vec2(0.0, 0.0), 0.0;
      sumHeight, sumHeading, sumHoriz, sumClimbRate := 0.0, 0.0, Vec2(0.0, 0.0), 0.0;
    }

    /** `init`: remembers the time and heading of the first sample. */
    method Init(tel: Telemetry)
      modifies this
      ensures CacheState() == old(CacheState()).(time := tel.time, heading := tel.heading)
      ensures SumState() == old(SumState())
    {
      lastTime := tel.time;
      lastHeading := tel.heading;
    }

    /**
     * `control`: with no time elapsed since the last call it does nothing;
     * otherwise it updates the integrators, sends throttle, yaw, pitch and roll,
     * and, when every command went out, caches the sample. A command that raises
     * leaves the integrators updated and the caches as they were.
     */
    method Control(sp: Setpoints, tel: Telemetry, link: Serial) returns (r: Outcome)
      requires sp.height.Some? || sp.climbRate.Some?
      modifies this, link
      ensures tel.time - old(lastTime) <= 0.0 ==>
                && r == Ok && CacheState() == old(CacheState()) && SumState() == old(SumState())
                && link.output == old(link.output)
      ensures tel.time - old(lastTime) > 0.0 ==>
                var step := ControlLaw(old(CacheState()), old(SumState()), sp, tel, math);
                var sent := Transmit(step.command);
                && r == sent.outcome
                && link.output == old(link.output) + sent.bytes
                && SumState() == step.sums
                && CacheState() == (if r == Ok then step.caches else old(CacheState()))
      ensures link.input == old(link.input)
      ensures link.output == old(link.output) + ControlOutput(old(CacheState()), old(SumState()), sp, tel, math)
    {
      var timeDiff := tel.time - lastTime;
      if timeDiff <= 0.0 {
        return Ok;
      }
      var command, currentHorizSpeed := Integrate(sp, tel);
      r := Send(link, command);
      if r != Ok {
        return;
      }
      lastHorizSpeed := currentHorizSpeed;
      lastHeading := tel.heading;
      lastClimbRate := tel.climbRate;
      lastTime := tel.time;
    }

    /** Lines 60-133 of `control`: the four channels and their integrators; nothing is sent. */
    method Integrate(sp: Setpoints, tel: Telemetry) returns (command: Command, currentHorizSpeed: Vec2)
      requires tel.time - lastTime > 0.0
      requires sp.height.Some? || sp.climbRate.Some?
      modifies this
      ensures var step := ControlLaw(old(CacheState()), old(SumState()), sp, tel, math);
              && command == step.command && SumState() == step.sums
              && currentHorizSpeed == step.caches.horizSpeed
      ensures CacheState() == old(CacheState())
    {
      ghost var c0, s0 := CacheState(), SumState();
      var throttle := ControlVertical(sp, tel);
      var yaw := ControlYaw(sp, tel);
      var horiz: Vec2;
      horiz, currentHorizSpeed := ControlHorizontal(sp, tel);
      var tilt := BodyFrame(horiz, tel.heading, math);
      ghost var step := ControlLaw(c0, s0, sp, tel, math);
      assert SumState() == step.sums;
      command := Command(throttle, yaw, tilt.pitch, tilt.roll);
      assert command == step.command;
    }

    /** Lines 60-92 of `control`: the throttle in height or climb-rate mode, and its integrator. */
    method ControlVertical(sp: Setpoints, tel: Telemetry) returns (throttle: real)
      requires tel.time - lastTime > 0.0
      requires sp.height.Some? || sp.climbRate.Some?
      modifies this
      ensures var v := VerticalChannel(old(CacheState()), old(SumState()), sp, tel);
              && throttle == v.output
              && sumHeight == (if sp.height.Some? then v.integral else old(sumHeight))
              && sumClimbRate == (if sp.height.Some? then old(sumClimbRate) else v.integral)
      ensures CacheState() == old(CacheState())
      ensures sumHeading == old(sumHeading) && sumHoriz == old(sumHoriz)
    {
      var timeDiff := tel.time - lastTime;
      if sp.height.Some? {
        var heightError := sp.height.value - tel.height;
        var pd := heightError * KP_HEIGHT - tel.climbRate * KD_HEIGHT;
        throttle := 50.0 + (pd + sumHeight) * HEIGHT_SCALE;
        if throttle >= 100.0 {
          throttle := 100.0;
          sumHeight := 50.0 / HEIGHT_SCALE - pd;
        } else if throttle <= 0.0 {
          throttle := 0.0;
          sumHeight := -50.0 / HEIGHT_SCALE - pd;
        }
        sumHeight := sumHeight + heightError * KI_HEIGHT;
      } else {
        var vertAcc := (tel.climbRate - lastClimbRate) / timeDiff;
        var climbError := sp.climbRate.value - tel.climbRate;
        var pd := climbError * KP_CLIMB - vertAcc * KD_CLIMB;
        throttle := 50.0 + (pd + sumClimbRate) * CLIMB_SCALE;
        if throttle >= 100.0 {
          throttle := 100.0;
          sumClimbRate := 50.0 / CLIMB_SCALE - pd;
        } else if throttle <= 0.0 {
          throttle := 0.0;
          sumClimbRate := -50.0 / CLIMB_SCALE - pd;
        }
        sumClimbRate := sumClimbRate + climbError * KI_HEIGHT;
      }
    }

    /** Lines 95-113 of `control`: the yaw on the wrapped heading error, and its integrator. */
    method ControlYaw(sp: Setpoints, tel: Telemetry) returns (yaw: real)
      requires tel.time - lastTime > 0.0
      modifies this
      ensures Saturated(yaw, sumHeading) == YawChannel(old(CacheState()), old(SumState()), sp, tel)
      ensures CacheState() == old(CacheState())
      ensures sumHeight == old(sumHeight) && sumClimbRate == old(sumClimbRate) && sumHoriz == old(sumHoriz)
    {
      var timeDiff := tel.time - lastTime;
      var headingRate := Wrap(tel.heading - lastHeading) / timeDiff;
      var headingError := Wrap(sp.heading - tel.heading);
      var headingPd := headingError * KP_HEADING - headingRate * KD_HEADING;
      ghost var channel := Saturate(headingPd, sumHeading, HEADING_SCALE, HEIGHT_SCALE, headingError * KI_HEADING);
      assert channel == YawChannel(old(CacheState()), old(SumState()), sp, tel);
      yaw := 50.0 + (headingPd + sumHeading) * HEADING_SCALE;
      if yaw >= 100.0 {
        yaw := 100.0;
        sumHeading := 50.0 / HEIGHT_SCALE - headingPd;
      } else if yaw <= 0.0 {
        yaw := 0.0;
        sumHeading := -50.0 / HEIGHT_SCALE - headingPd;
      }
      sumHeading := sumHeading + headingError * KI_HEADING;
    }

    /**
     * Lines 115-128 of `control`: the capped horizontal command and its
     * integrator; also returns the current velocity, which the caller caches.
     */
    method ControlHorizontal(sp: Setpoints, tel: Telemetry) returns (horiz: Vec2, currentHorizSpeed: Vec2)
      requires tel.time - lastTime > 0.0
      modifies this
      ensures Horizontal(horiz, sumHoriz) == HorizontalChannel(old(CacheState()), old(SumState()), sp, tel, math)
      ensures currentHorizSpeed == Velocity(tel.track, tel.speed, math)
      ensures CacheState() == old(CacheState())
      ensures sumHeight == old(sumHeight) && sumClimbRate == old(sumClimbRate) && sumHeading == old(sumHeading)
    {
      var timeDiff := tel.time - lastTime;
      var targetHorizSpeed := Velocity(sp.course, sp.speed, math);
      currentHorizSpeed := Velocity(tel.track, tel.speed, math);
      var horizAcc := currentHorizSpeed.Minus(lastHorizSpeed).Times(1.0 / timeDiff);
      var horizError := currentHorizSpeed.Minus(targetHorizSpeed);
      horiz := ScaledHorizontal(horizError, horizAcc, sumHoriz);
      var magnitude := math.sqrt(horiz.Norm2());
      if magnitude >= 50.0 {
        horiz := horiz.Times(50.0 / magnitude);
      } else {
        sumHoriz := sumHoriz.Plus(horiz.Times(KI_HORIZ));
      }
    }
  }
}
