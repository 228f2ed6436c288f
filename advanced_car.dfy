/** The AdvancedCar component (src/components/game/AdvancedCar.tsx): a five-flag key record
    named after the AZERTY keys z, s, q, d and shift, and a frame step that picks a handling
    mode, issues speed-capped thrust and turning torques, and tilts the car body. */
module Advanced {
  import opened Wrappers
  import opened Vectors
  import opened Physics
  import opened Numeric
  import opened Controls

  /** The component's key table. Unlike the keyboard hook it has no KeyW or KeyA alias and
      no Space: z is forward, s backward, q left, d right, shift drift. */
  function Binding(code: string): (b: Option<Flag>)
    ensures b == Some(Forward) <==> code == "KeyZ"
    ensures b == Some(Backward) <==> code == "KeyS"
    ensures b == Some(Left) <==> code == "KeyQ"
    ensures b == Some(Right) <==> code == "KeyD"
    ensures b == Some(Drift) <==> code == "ShiftLeft" || code == "ShiftRight"
    ensures b != Some(Handbrake)
  {
    if code == "KeyZ" then Some(Forward)
    else if code == "KeyS" then Some(Backward)
    else if code == "KeyQ" then Some(Left)
    else if code == "KeyD" then Some(Right)
    else if code == "ShiftLeft" || code == "ShiftRight" then Some(Drift)
    else None
  }

  /** A key-up clears exactly the flag its code is bound to; the hook's aliases KeyW and
      KeyA, and Space, are not in this table and change nothing. */
  lemma KeyUpClearsMatching(c: ControlState, code: string)
    ensures forall f :: Get(Apply(c, Binding(code), false), f) <==> Binding(code) != Some(f) && Get(c, f)
    ensures Binding("KeyW").None? && Binding("KeyA").None? && Binding("Space").None?
  {
  }

  const Force := 25000.0
  const MaxSpeed := 50.0
  const NormalFriction := 0.7
  const DriftFriction := 0.2
  const NormalTorque := 8000.0
  const DriftTorque := 12000.0

  /** The two values the drift mode chooses: the body material's friction and the turning
      torque. */
  datatype Handling = Handling(friction: real, torque: real)

  function Grip(drift: bool): (h: Handling)
    ensures drift <==> h.friction == DriftFriction
    ensures drift <==> h.torque == DriftTorque
    ensures !drift <==> h.friction == NormalFriction && h.torque == NormalTorque
  {
    if drift then Handling(DriftFriction, DriftTorque) else Handling(NormalFriction, NormalTorque)
  }

  /** Drifting trades grip for turning authority: less friction, half as much torque again. */
  lemma DriftTradesGripForTorque()
    ensures Grip(true).friction < Grip(false).friction
    ensures Grip(true).torque == 1.5 * Grip(false).torque
  {
  }

  const Thrust := ApplyLocalForce(Vec3(0.0, 0.0, -Force), Zero)
  const Reverse := ApplyLocalForce(Vec3(0.0, 0.0, Force * 0.6), Zero)

  function TurnLeft(torque: real): Command { ApplyTorque(Vec3(0.0, torque, 0.0)) }

  function TurnRight(torque: real): Command { ApplyTorque(Vec3(0.0, -torque, 0.0)) }

  /** The commands of one frame, in the order the component issues them. */
  function Commands(keys: ControlState, speed: real): (cmds: seq<Command>)
    ensures |cmds| <= 4
  {
    var torque := Grip(keys.drift).torque;
    Issue(keys.forward && speed < MaxSpeed, Thrust)
    + Issue(keys.backward, Reverse)
    + Issue(keys.left, TurnLeft(torque))
    + Issue(keys.right, TurnRight(torque))
  }

  /** Each command of a frame is present exactly when its gate holds. */
  lemma CommandsEmitted(keys: ControlState, speed: real)
    ensures forall c :: c in Commands(keys, speed) <==>
      || (keys.forward && speed < MaxSpeed && c == Thrust)
      || (keys.backward && c == Reverse)
      || (keys.left && c == TurnLeft(Grip(keys.drift).torque))
      || (keys.right && c == TurnRight(Grip(keys.drift).torque))
  {
  }

  /** Thrust (0, 0, -25000) is issued exactly when z is held and speed is strictly below 50;
      the reverse force (0, 0, +15000) whenever s is held, at any speed. */
  lemma DriveGates(keys: ControlState, speed: real)
    ensures Thrust in Commands(keys, speed) <==> keys.forward && speed < MaxSpeed
    ensures Reverse in Commands(keys, speed) <==> keys.backward
    ensures Reverse.force == Vec3(0.0, 0.0, 15000.0)
  {
    CommandsEmitted(keys, speed);
  }

  /** q and d act independently: each one issues its torque whatever the other does, and
      with both held the two torques are issued and cancel out. */
  lemma TurnsIndependent(keys: ControlState, speed: real)
    ensures TurnLeft(Grip(keys.drift).torque) in Commands(keys, speed) <==> keys.left
    ensures TurnRight(Grip(keys.drift).torque) in Commands(keys, speed) <==> keys.right
    ensures Add(TurnLeft(Grip(keys.drift).torque).torque, TurnRight(Grip(keys.drift).torque).torque) == Zero
  {
    CommandsEmitted(keys, speed);
  }

  /** Math.min(speed / 20, 1): the tilt's share of the full effect, saturating at 20 m/s. */
  function SpeedFactor(speed: real): (r: real)
    requires speed >= 0.0
    ensures 0.0 <= r <= 1.0
    ensures r == 1.0 <==> speed >= 20.0
    ensures r < 1.0 ==> r * 20.0 == speed
  {
    Min(speed / 20.0, 1.0)
  }

  /** A faster car never gets a smaller factor. */
  lemma SpeedFactorMonotone(a: real, b: real)
    requires 0.0 <= a <= b
    ensures SpeedFactor(a) <= SpeedFactor(b)
  {
  }

  /** The body roll: lateral velocity times -0.02 times the speed factor, half as much
      again in drift mode. */
  function TiltZ(vx: real, factor: real, drift: bool): (r: real)
    ensures vx * factor > 0.0 ==> r < 0.0
    ensures vx * factor < 0.0 ==> r > 0.0
    ensures vx * factor == 0.0 ==> r == 0.0
  {
    var roll := vx * -0.02 * factor;
    if drift then roll * 1.5 else roll
  }

  /** The body pitch, never scaled by the drift mode. */
  function TiltX(vz: real, factor: real): (r: real)
    ensures vz * factor > 0.0 ==> r > 0.0
    ensures vz * factor < 0.0 ==> r < 0.0
    ensures Abs(r) == 0.01 * Abs(vz * factor)
  {
    vz * 0.01 * factor
  }

  /** Drift multiplies the roll by exactly 1.5; the roll leans against the lateral velocity
      and stays within 0.03 of its magnitude. */
  lemma TiltProperties(vx: real, speed: real)
    requires speed >= 0.0
    ensures TiltZ(vx, SpeedFactor(speed), true) == 1.5 * TiltZ(vx, SpeedFactor(speed), false)
    ensures vx >= 0.0 ==> -0.03 * vx <= TiltZ(vx, SpeedFactor(speed), true) <= 0.0
    ensures vx <= 0.0 ==> 0.0 <= TiltZ(vx, SpeedFactor(speed), true) <= -0.03 * vx
    ensures Abs(TiltZ(vx, SpeedFactor(speed), false)) <= 0.02 * Abs(vx)
  {
    TiltScaled(vx, SpeedFactor(speed));
  }

  /** TiltProperties for any factor in [0, 1]. */
  lemma TiltScaled(vx: real, f: real)
    requires 0.0 <= f <= 1.0
    ensures TiltZ(vx, f, true) == 1.5 * TiltZ(vx, f, false)
    ensures vx >= 0.0 ==> -0.03 * vx <= TiltZ(vx, f, true) <= 0.0
    ensures vx <= 0.0 ==> 0.0 <= TiltZ(vx, f, true) <= -0.03 * vx
    ensures Abs(TiltZ(vx, f, false)) <= 0.02 * Abs(vx)
  {
    var p := ScaledWithin(vx, f);
    TiltZProduct(vx, f);
    RollBounds(vx, p, TiltZ(vx, f, false), TiltZ(vx, f, true));
  }

  /** The bounds on the two rolls, given the product they scale. */
  lemma RollBounds(vx: real, p: real, roll: real, driftRoll: real)
    requires vx >= 0.0 ==> 0.0 <= p <= vx
    requires vx <= 0.0 ==> vx <= p <= 0.0
    requires roll == -0.02 * p && driftRoll == -0.03 * p
    ensures driftRoll == 1.5 * roll
    ensures vx >= 0.0 ==> -0.03 * vx <= driftRoll <= 0.0
    ensures vx <= 0.0 ==> 0.0 <= driftRoll <= -0.03 * vx
    ensures Abs(roll) <= 0.02 * Abs(vx)
  {
  }

  /** The roll as a multiple of the product of the velocity and the factor. */
  lemma TiltZProduct(vx: real, f: real)
    ensures TiltZ(vx, f, false) == -0.02 * (vx * f)
    ensures TiltZ(vx, f, true) == -0.03 * (vx * f)
  {
  }

  /** A factor in [0, 1] moves a value toward zero without crossing it. */
  lemma ScaledWithin(v: real, f: real) returns (p: real)
    requires 0.0 <= f <= 1.0
    ensures p == v * f
    ensures v >= 0.0 ==> 0.0 <= p <= v
    ensures v <= 0.0 ==> v <= p <= 0.0
  {
    p := v * f;
    if v >= 0.0 {
      assert v - v * f == v * (1.0 - f);
    } else {
      assert v * f - v == (-v) * (1.0 - f);
      assert (-v) * f >= 0.0;
    }
  }

  /** The component's per-frame state: the key record, the body's friction and the group's
      two tilt angles. */
  class AdvancedCar {
    var z: bool
    var s: bool
    var q: bool
    var d: bool
    var shift: bool
    var friction: real
    var tiltZ: real
    var tiltX: real

    /** The record viewed as a control state; it has no handbrake flag. */
    function Keys(): ControlState
      reads this
    {
      ControlState(z, s, q, d, shift, false)
    }

    constructor ()
      ensures Keys() == AllReleased
      ensures friction == NormalFriction && tiltZ == 0.0 && tiltX == 0.0
    {
      z, s, q, d, shift := false, false, false, false, false;
      friction := NormalFriction;
      tiltZ, tiltX := 0.0, 0.0;
    }

    method HandleKeyDown(code: string)
      modifies this
      ensures Keys() == Apply(old(Keys()), Binding(code), true)
      ensures friction == old(friction) && tiltZ == old(tiltZ) && tiltX == old(tiltX)
    {
      if code == "KeyZ" {
        z := true;
      } else if code == "KeyS" {
        s := true;
      } else if code == "KeyQ" {
        q := true;
      } else if code == "KeyD" {
        d := true;
      } else if code == "ShiftLeft" || code == "ShiftRight" {
        shift := true;
      }
    }

    method HandleKeyUp(code: string)
      modifies this
      ensures Keys() == Apply(old(Keys()), Binding(code), false)
      ensures friction == old(friction) && tiltZ == old(tiltZ) && tiltX == old(tiltX)
    {
      if code == "KeyZ" {
        z := false;
      } else if code == "KeyS" {
        s := false;
      } else if code == "KeyQ" {
        q := false;
      } else if code == "KeyD" {
        d := false;
      } else if code == "ShiftLeft" || code == "ShiftRight" {
        shift := false;
      }
    }

    /** One useFrame step. `speed` is Math.sqrt of the horizontal velocity's squared
        length; `hasGroup` says whether the group ref is mounted, without which the tilt is
        left alone. */
    method Frame(velocity: Vec3, speed: real, hasGroup: bool) returns (displaySpeed: int, cmds: seq<Command>)
      requires IsSqrt(speed, velocity.x * velocity.x + velocity.z * velocity.z)
      modifies this`friction, this`tiltZ, this`tiltX
      ensures displaySpeed == DisplaySpeed(speed)
      ensures friction == Grip(shift).friction
      ensures cmds == Commands(Keys(), speed)
      ensures hasGroup ==> tiltZ == TiltZ(velocity.x, SpeedFactor(speed), shift)
      ensures hasGroup ==> tiltX == TiltX(velocity.z, SpeedFactor(speed))
      ensures !hasGroup ==> tiltZ == old(tiltZ) && tiltX == old(tiltX)
    {
      displaySpeed := DisplaySpeed(speed);
      var torque := UpdateGrip();
      cmds := IssueCommands(torque, speed);
      if hasGroup {
        UpdateTilt(velocity, speed);
      }
    }

    /** The drift-mode branch: sets the body's friction and returns the turning torque. */
    method UpdateGrip() returns (torque: real)
      modifies this`friction
      ensures Handling(friction, torque) == Grip(shift)
    {
      if shift {
        friction := DriftFriction;
        torque := DriftTorque;
      } else {
        friction := NormalFriction;
        torque := NormalTorque;
      }
    }

    /** The physics calls of the frame, one after another. */
    method IssueCommands(torque: real, speed: real) returns (cmds: seq<Command>)
      requires torque == Grip(shift).torque
      ensures cmds == Commands(Keys(), speed)
    {
      cmds := Issue(z && speed < MaxSpeed, Thrust);
      cmds := cmds + Issue(s, Reverse);
      cmds := cmds + Issue(q, TurnLeft(torque));
      cmds := cmds + Issue(d, TurnRight(torque));
    }

    /** The group's roll and pitch, scaled by the speed factor. */
    method UpdateTilt(velocity: Vec3, speed: real)
      requires speed >= 0.0
      modifies this`tiltZ, this`tiltX
      ensures tiltZ == TiltZ(velocity.x, SpeedFactor(speed), shift)
      ensures tiltX == TiltX(velocity.z, SpeedFactor(speed))
    {
      var speedFactor := Min(speed / 20.0, 1.0);
      tiltZ := velocity.x * -0.02 * speedFactor;
      tiltX := velocity.z * 0.01 * speedFactor;
      if shift {
        tiltZ := tiltZ * 1.5;
      }
    }
  }
}
