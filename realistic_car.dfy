/** The RealisticCar component (src/components/game/RealisticCar.tsx): its own key
    handlers on a five-flag record, a steering angle kept across frames, and a frame
    step that turns flags, speed and orientation into physics commands. */
module Realistic {
  import opened Wrappers
  import opened Vectors
  import opened Physics
  import opened Numeric
  import opened Controls

  /** The component's key table: the hook's codes without Space, since this record has
      no handbrake flag. */
  function Binding(code: string): (b: Option<Flag>)
    ensures b == Some(Forward) <==> code == "KeyZ" || code == "KeyW"
    ensures b == Some(Backward) <==> code == "KeyS"
    ensures b == Some(Left) <==> code == "KeyQ" || code == "KeyA"
    ensures b == Some(Right) <==> code == "KeyD"
    ensures b == Some(Drift) <==> code == "ShiftLeft" || code == "ShiftRight"
    ensures b != Some(Handbrake)
  {
    if code == "KeyZ" || code == "KeyW" then Some(Forward)
    else if code == "KeyS" then Some(Backward)
    else if code == "KeyQ" || code == "KeyA" then Some(Left)
    else if code == "KeyD" then Some(Right)
    else if code == "ShiftLeft" || code == "ShiftRight" then Some(Drift)
    else None
  }

  const MotorForce := 2000.0
  const BrakeForce := 3000.0
  const MaxSteeringAngle := 0.5
  const SteeringSpeed := 0.05
  const Centering := 0.9
  const SteeringGain := 800.0
  const DriftGain := 1500.0
  const StabilisingGain := 2000.0

  /** The steering-angle update of one frame: a held key moves the angle by 0.05 toward
      its side until the stop at 0.5, and with neither key held the angle decays toward 0. */
  function Steer(angle: real, left: bool, right: bool): (r: real)
    ensures -MaxSteeringAngle <= angle <= MaxSteeringAngle ==> -MaxSteeringAngle <= r <= MaxSteeringAngle
    ensures left && angle + SteeringSpeed <= MaxSteeringAngle ==> r == angle + SteeringSpeed
    ensures left && angle + SteeringSpeed > MaxSteeringAngle ==> r == MaxSteeringAngle
    ensures !left && right && angle - SteeringSpeed >= -MaxSteeringAngle ==> r == angle - SteeringSpeed
    ensures !left && right && angle - SteeringSpeed < -MaxSteeringAngle ==> r == -MaxSteeringAngle
    ensures !left && !right ==> Abs(r) <= Abs(angle) && (r > 0.0 <==> angle > 0.0) && (r < 0.0 <==> angle < 0.0)
    ensures !left && !right && angle != 0.0 ==> Abs(r) < Abs(angle)
  {
    if left then Min(angle + SteeringSpeed, MaxSteeringAngle)
    else if right then Max(angle - SteeringSpeed, -MaxSteeringAngle)
    else angle * Centering
  }

  /** Left is checked first: once left is held, right makes no difference. */
  lemma LeftTakesPriority(angle: real, right: bool)
    ensures Steer(angle, true, right) == Steer(angle, true, !right)
  {
  }

  /** `n` frames with no steering key held. */
  function Recentre(angle: real, n: nat): (r: real)
    ensures r == Pow(Centering, n) * angle
  {
    if n == 0 then angle
    else
      var prev := Recentre(angle, n - 1);
      assert prev * Centering == (Centering * Pow(Centering, n - 1)) * angle;
      Steer(prev, false, false)
  }

  /** Letting go of the steering keys: the angle's magnitude never grows and its sign
      never flips, however many frames pass. */
  lemma {:induction false} RecentreShrinks(angle: real, n: nat)
    ensures Abs(Recentre(angle, n)) <= Abs(angle)
    ensures Recentre(angle, n) > 0.0 <==> angle > 0.0
    ensures Recentre(angle, n) < 0.0 <==> angle < 0.0
  {
    if n > 0 {
      RecentreShrinks(angle, n - 1);
    }
  }

  datatype SteeringKeys = SteeringKeys(left: bool, right: bool)

  /** The steering angle after a run of frames. */
  function SteerRun(angle: real, frames: seq<SteeringKeys>): (r: real)
    ensures (forall i :: 0 <= i < |frames| ==> !frames[i].left && !frames[i].right) ==>
      r == Pow(Centering, |frames|) * angle
    decreases |frames|
  {
    if frames == [] then angle
    else
      var r := SteerRun(Steer(angle, frames[0].left, frames[0].right), frames[1..]);
      assert !frames[0].left && !frames[0].right ==>
        Pow(Centering, |frames| - 1) * (angle * Centering) == Pow(Centering, |frames|) * angle;
      r
  }

  /** Whatever keys are held frame after frame, an angle that starts at 0 (or anywhere in
      range) stays within [-0.5, 0.5]. */
  lemma {:induction false} SteerRunBounded(angle: real, frames: seq<SteeringKeys>)
    requires -MaxSteeringAngle <= angle <= MaxSteeringAngle
    ensures -MaxSteeringAngle <= SteerRun(angle, frames) <= MaxSteeringAngle
    decreases |frames|
  {
    if frames != [] {
      SteerRunBounded(Steer(angle, frames[0].left, frames[0].right), frames[1..]);
    }
  }

  function SteeringTorque(angle: real, speed: real): Vec3 {
    Vec3(0.0, -(angle * speed * SteeringGain), 0.0)
  }

  function StabilisingTorque(rotation: Vec3): Vec3 {
    Vec3(-rotation.x * StabilisingGain, 0.0, -rotation.z * StabilisingGain)
  }

  /** Air drag plus rolling resistance. */
  function ResistanceMagnitude(speed: real): (r: real)
    requires speed >= 0.0
    ensures r >= 50.0 * speed
    ensures speed > 0.0 ==> r > 0.0
  {
    speed * speed * 0.02 + speed * 50.0
  }

  /** The resistance force as lines 99-101 and 118-124 compute it: minus the magnitude
      along (sin yaw, 0, cos yaw), where yaw is the body's rotation about y. */
  function ResistanceAsWritten(sinYaw: real, cosYaw: real, speed: real): (r: Vec3)
    requires speed >= 0.0
    requires sinYaw * sinYaw + cosYaw * cosYaw == 1.0
    ensures Dot(r, Vec3(sinYaw, 0.0, cosYaw)) == -ResistanceMagnitude(speed)
    ensures r.x * cosYaw == r.z * sinYaw
    ensures r.y == 0.0
    ensures r.x * r.x + r.z * r.z == ResistanceMagnitude(speed) * ResistanceMagnitude(speed)
  {
    var m := ResistanceMagnitude(speed);
    assert Dot(Vec3(-sinYaw * m, 0.0, -cosYaw * m), Vec3(sinYaw, 0.0, cosYaw))
        == -m * (sinYaw * sinYaw + cosYaw * cosYaw);
    assert (-sinYaw * m) * (-sinYaw * m) + (-cosYaw * m) * (-cosYaw * m)
        == m * m * (sinYaw * sinYaw + cosYaw * cosYaw);
    Vec3(-sinYaw * m, 0.0, -cosYaw * m)
  }

  /** The world direction of the body's local -z axis, along which the motor's local force
      (0, 0, -2000) pushes, for a body turned by `yaw` about y. */
  function Heading(sinYaw: real, cosYaw: real): Vec3 {
    Vec3(-sinYaw, 0.0, -cosYaw)
  }

  /** The force as written pushes the car forward: for every yaw and every speed above the
      0.1 gate, a car moving along its heading, the way the motor drives it, gets a
      "resistance" with a positive component along its velocity. At yaw 0 and 10 m/s that
      is the force (0, 0, -502) against the velocity (0, 0, -10). */
  lemma ResistanceAsWrittenPushesForward(sinYaw: real, cosYaw: real, speed: real)
    requires sinYaw * sinYaw + cosYaw * cosYaw == 1.0 && speed > 0.1
    ensures var v := Scale(speed, Heading(sinYaw, cosYaw));
      && IsSqrt(speed, v.x * v.x + v.z * v.z)
      && Dot(ResistanceAsWritten(sinYaw, cosYaw, speed), v) == ResistanceMagnitude(speed) * speed
      && Dot(ResistanceAsWritten(sinYaw, cosYaw, speed), v) > 0.0
    ensures ResistanceAsWritten(0.0, 1.0, 10.0) == Vec3(0.0, 0.0, -502.0)
  {
    var m := ResistanceMagnitude(speed);
    var v := Scale(speed, Heading(sinYaw, cosYaw));
    var r := ResistanceAsWritten(sinYaw, cosYaw, speed);
    assert v.x * v.x + v.z * v.z == speed * speed * (sinYaw * sinYaw + cosYaw * cosYaw);
    assert Dot(r, v) == m * speed * (sinYaw * sinYaw + cosYaw * cosYaw);
    assert m * speed > 0.0;
    assert ResistanceMagnitude(10.0) == 502.0;
  }

  /** Resistance against the horizontal velocity, of the same magnitude: the force the
      component labels "Forces de résistance". The frame step below applies the force as
      written; CorrectedResistanceGate shows the gate with this one in its place. */
  function Resistance(velocity: Vec3, speed: real): (r: Vec3)
    requires speed > 0.0
    requires IsSqrt(speed, velocity.x * velocity.x + velocity.z * velocity.z)
    ensures r.y == 0.0
    ensures Dot(r, velocity) == -ResistanceMagnitude(speed) * speed
    ensures r.x * r.x + r.z * r.z == ResistanceMagnitude(speed) * ResistanceMagnitude(speed)
  {
    var m := ResistanceMagnitude(speed);
    var k := m / speed;
    var r := Vec3(-velocity.x * k, 0.0, -velocity.z * k);
    assert Dot(r, velocity) == -k * (speed * speed);
    assert k * speed == m;
    assert r.x * r.x + r.z * r.z == k * k * (speed * speed);
    r
  }

  const Motor := ApplyLocalForce(Vec3(0.0, 0.0, -MotorForce), Zero)
  const Brake := ApplyLocalForce(Vec3(0.0, 0.0, BrakeForce * 0.6), Zero)

  function DriftPush(angle: real): Command {
    ApplyLocalForce(Vec3(angle * DriftGain, 0.0, 0.0), Zero)
  }

  /** The commands of one frame, in the order the component issues them, given the
      flags, the already-updated steering angle, the body's kinematics and the world force
      the resistance branch applies. */
  function Commands(keys: ControlState, angle: real, speed: real, resistance: Vec3, rotation: Vec3, position: Vec3): (cmds: seq<Command>)
    ensures |cmds| <= 6
  {
    Issue(keys.forward, Motor)
    + Issue(keys.backward, Brake)
    + Issue(speed > 0.5 && Abs(angle) > 0.01, ApplyTorque(SteeringTorque(angle, speed)))
    + Issue(speed > 0.1, ApplyForce(resistance, position))
    + Issue(keys.drift && speed > 3.0, DriftPush(angle))
    + Issue(Abs(rotation.x) > 0.1 || Abs(rotation.z) > 0.1, ApplyTorque(StabilisingTorque(rotation)))
  }

  /** The set of commands of a frame: each one present exactly when its gate holds. */
  lemma CommandsEmitted(keys: ControlState, angle: real, speed: real, resistance: Vec3, rotation: Vec3, position: Vec3)
    ensures forall c :: c in Commands(keys, angle, speed, resistance, rotation, position) <==>
      || (keys.forward && c == Motor)
      || (keys.backward && c == Brake)
      || (speed > 0.5 && Abs(angle) > 0.01 && c == ApplyTorque(SteeringTorque(angle, speed)))
      || (speed > 0.1 && c == ApplyForce(resistance, position))
      || (keys.drift && speed > 3.0 && c == DriftPush(angle))
      || ((Abs(rotation.x) > 0.1 || Abs(rotation.z) > 0.1) && c == ApplyTorque(StabilisingTorque(rotation)))
  {
  }

  /** Forward and backward are independent: the motor force (0, 0, -2000) is issued
      exactly when forward is held and the reverse force (0, 0, +1800) exactly when
      backward is held, both in one frame when both are held. */
  lemma DriveGates(keys: ControlState, angle: real, speed: real, resistance: Vec3, rotation: Vec3, position: Vec3)
    ensures Motor in Commands(keys, angle, speed, resistance, rotation, position) <==> keys.forward
    ensures Brake in Commands(keys, angle, speed, resistance, rotation, position) <==> keys.backward
  {
    CommandsEmitted(keys, angle, speed, resistance, rotation, position);
  }

  /** The steering torque (0, -angle * speed * 800, 0) is issued exactly when speed is
      above 0.5 and the angle's magnitude above 0.01. */
  lemma SteeringGate(keys: ControlState, angle: real, speed: real, resistance: Vec3, rotation: Vec3, position: Vec3)
    ensures ApplyTorque(SteeringTorque(angle, speed)) in Commands(keys, angle, speed, resistance, rotation, position)
      <==> speed > 0.5 && Abs(angle) > 0.01
  {
    CommandsEmitted(keys, angle, speed, resistance, rotation, position);
    NonZeroProduct(angle, speed);
  }

  /** With the force as written: a world force is issued exactly when speed is above 0.1,
      and it is minus 0.02 * speed^2 + 50 * speed along (sin yaw, 0, cos yaw), with no
      sideways part. */
  lemma ResistanceGate(keys: ControlState, angle: real, speed: real, sinYaw: real, cosYaw: real, rotation: Vec3, position: Vec3)
    requires speed >= 0.0 && sinYaw * sinYaw + cosYaw * cosYaw == 1.0
    ensures var cmds := Commands(keys, angle, speed, ResistanceAsWritten(sinYaw, cosYaw, speed), rotation, position);
      forall c :: c in cmds && c.ApplyForce? ==>
        && speed > 0.1 && c.worldPoint == position
        && Dot(c.force, Vec3(sinYaw, 0.0, cosYaw)) == -ResistanceMagnitude(speed)
        && c.force.x * cosYaw == c.force.z * sinYaw && c.force.y == 0.0
    ensures speed > 0.1 ==>
      ApplyForce(ResistanceAsWritten(sinYaw, cosYaw, speed), position)
        in Commands(keys, angle, speed, ResistanceAsWritten(sinYaw, cosYaw, speed), rotation, position)
  {
    CommandsEmitted(keys, angle, speed, ResistanceAsWritten(sinYaw, cosYaw, speed), rotation, position);
  }

  /** With the corrected force in the resistance branch, every world force issued opposes
      the velocity. */
  lemma CorrectedResistanceGate(keys: ControlState, angle: real, speed: real, velocity: Vec3, rotation: Vec3, position: Vec3)
    requires IsSqrt(speed, velocity.x * velocity.x + velocity.z * velocity.z)
    ensures var resistance := if speed > 0.1 then Resistance(velocity, speed) else Zero;
      forall c :: c in Commands(keys, angle, speed, resistance, rotation, position) && c.ApplyForce? ==>
        speed > 0.1 && Dot(c.force, velocity) == -ResistanceMagnitude(speed) * speed && Dot(c.force, velocity) < 0.0
  {
    var resistance := if speed > 0.1 then Resistance(velocity, speed) else Zero;
    CommandsEmitted(keys, angle, speed, resistance, rotation, position);
    if speed > 0.1 {
      assert ResistanceMagnitude(speed) * speed > 0.0;
    }
  }

  /** The drift push (angle * 1500, 0, 0) is issued exactly when drift is held and speed
      is strictly above 3. */
  lemma DriftGate(keys: ControlState, angle: real, speed: real, resistance: Vec3, rotation: Vec3, position: Vec3)
    ensures DriftPush(angle) in Commands(keys, angle, speed, resistance, rotation, position) <==> keys.drift && speed > 3.0
  {
    CommandsEmitted(keys, angle, speed, resistance, rotation, position);
  }

  /** The stabilising torque (-2000 * rx, 0, -2000 * rz) is issued exactly when roll or
      pitch exceeds 0.1 in magnitude. */
  lemma StabilisingGate(keys: ControlState, angle: real, speed: real, resistance: Vec3, rotation: Vec3, position: Vec3)
    ensures ApplyTorque(StabilisingTorque(rotation)) in Commands(keys, angle, speed, resistance, rotation, position)
      <==> Abs(rotation.x) > 0.1 || Abs(rotation.z) > 0.1
  {
    CommandsEmitted(keys, angle, speed, resistance, rotation, position);
    NonZeroProduct(angle, speed);
  }

  lemma NonZeroProduct(angle: real, speed: real)
    ensures speed > 0.5 && Abs(angle) > 0.01 ==> angle * speed * SteeringGain != 0.0
  {
    if speed > 0.5 && angle > 0.01 {
      assert angle * speed > 0.0;
    } else if speed > 0.5 && angle < -0.01 {
      assert (-angle) * speed > 0.0;
    }
  }

  /** The component's state across frames: the key record and the steering angle. */
  class RealisticCar {
    var forward: bool
    var backward: bool
    var left: bool
    var right: bool
    var drift: bool
    var steeringAngle: real

    ghost predicate Valid()
      reads this
    {
      -MaxSteeringAngle <= steeringAngle <= MaxSteeringAngle
    }

    /** The record viewed as a control state; it has no handbrake flag. */
    function Keys(): ControlState
      reads this
    {
      ControlState(forward, backward, left, right, drift, false)
    }

    constructor ()
      ensures Valid() && steeringAngle == 0.0 && Keys() == AllReleased
    {
      forward, backward, left, right, drift := false, false, false, false, false;
      steeringAngle := 0.0;
    }

    method HandleKeyDown(code: string)
      modifies this
      ensures Keys() == Apply(old(Keys()), Binding(code), true)
      ensures steeringAngle == old(steeringAngle)
    {
      if code == "KeyZ" || code == "KeyW" {
        forward := true;
      } else if code == "KeyS" {
        backward := true;
      } else if code == "KeyQ" || code == "KeyA" {
        left := true;
      } else if code == "KeyD" {
        right := true;
      } else if code == "ShiftLeft" || code == "ShiftRight" {
        drift := true;
      }
    }

    method HandleKeyUp(code: string)
      modifies this
      ensures Keys() == Apply(old(Keys()), Binding(code), false)
      ensures steeringAngle == old(steeringAngle)
    {
      if code == "KeyZ" || code == "KeyW" {
        forward := false;
      } else if code == "KeyS" {
        backward := false;
      } else if code == "KeyQ" || code == "KeyA" {
        left := false;
      } else if code == "KeyD" {
        right := false;
      } else if code == "ShiftLeft" || code == "ShiftRight" {
        drift := false;
      }
    }

    /** One useFrame step: the speed reported to the game state, the steering update and
        the commands sent to the physics body. `speed` is Math.sqrt of the horizontal
        velocity's squared length, and `sinYaw` and `cosYaw` are Math.sin and Math.cos of
        the body's rotation about y. */
    method Frame(velocity: Vec3, speed: real, sinYaw: real, cosYaw: real, rotation: Vec3, position: Vec3)
      returns (displaySpeed: int, cmds: seq<Command>)
      requires Valid()
      requires IsSqrt(speed, velocity.x * velocity.x + velocity.z * velocity.z)
      requires sinYaw * sinYaw + cosYaw * cosYaw == 1.0
      modifies this
      ensures Valid() && Keys() == old(Keys())
      ensures steeringAngle == Steer(old(steeringAngle), left, right)
      ensures displaySpeed == DisplaySpeed(speed)
      ensures cmds == Commands(Keys(), steeringAngle, speed, ResistanceAsWritten(sinYaw, cosYaw, speed), rotation, position)
    {
      displaySpeed := DisplaySpeed(speed);
      UpdateSteering();
      cmds := IssueCommands(Keys(), steeringAngle, speed, sinYaw, cosYaw, rotation, position);
    }

    /** The steering part of the frame: toward the held side by 0.05 up to the stop, or
        back toward the centre by a factor 0.9. */
    method UpdateSteering()
      requires Valid()
      modifies this
      ensures Valid() && Keys() == old(Keys())
      ensures steeringAngle == Steer(old(steeringAngle), left, right)
    {
      if left {
        steeringAngle := Min(steeringAngle + SteeringSpeed, MaxSteeringAngle);
      } else if right {
        steeringAngle := Max(steeringAngle - SteeringSpeed, -MaxSteeringAngle);
      } else {
        steeringAngle := steeringAngle * Centering;
      }
    }

    /** The physics calls of the frame, one after another. */
    static method IssueCommands(keys: ControlState, angle: real, speed: real, sinYaw: real, cosYaw: real, rotation: Vec3, position: Vec3)
      returns (cmds: seq<Command>)
      requires speed >= 0.0
      requires sinYaw * sinYaw + cosYaw * cosYaw == 1.0
      ensures cmds == Commands(keys, angle, speed, ResistanceAsWritten(sinYaw, cosYaw, speed), rotation, position)
    {
      cmds := Issue(keys.forward, Motor);
      cmds := cmds + Issue(keys.backward, Brake);
      cmds := cmds + Issue(speed > 0.5 && Abs(angle) > 0.01, ApplyTorque(SteeringTorque(angle, speed)));
      var totalResistance := ResistanceMagnitude(speed);
      var resistance := Vec3(-sinYaw * totalResistance, 0.0, -cosYaw * totalResistance);
      assert resistance == ResistanceAsWritten(sinYaw, cosYaw, speed);
      cmds := cmds + Issue(speed > 0.1, ApplyForce(resistance, position));
      cmds := cmds + Issue(keys.drift && speed > 3.0, DriftPush(angle));
      cmds := cmds + Issue(Abs(rotation.x) > 0.1 || Abs(rotation.z) > 0.1, ApplyTorque(StabilisingTorque(rotation)));
    }
  }
}
