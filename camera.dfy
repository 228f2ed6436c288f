/** The mutable vector and camera objects of the THREE library that the camera follower
    updates in place, reduced to their coordinates. */
module Three {
  import opened Vectors

  /** THREE.Vector3: three coordinates that set, lerp and copy overwrite in place. */
  class Vector3 {
    var x: real
    var y: real
    var z: real

    function Value(): Vec3
      reads this
    {
      Vec3(x, y, z)
    }

    constructor (x: real, y: real, z: real)
      ensures Value() == Vec3(x, y, z)
    {
      this.x, this.y, this.z := x, y, z;
    }

    method Set(x: real, y: real, z: real)
      modifies this
      ensures Value() == Vec3(x, y, z)
    {
      this.x, this.y, this.z := x, y, z;
    }

    /** Moves every coordinate `alpha` of the way toward `v`. */
    method Lerp(v: Vector3, alpha: real)
      modifies this
      ensures Value() == Vectors.Lerp(old(Value()), old(v.Value()), alpha)
    {
      var vx, vy, vz := v.x, v.y, v.z;
      x := x + (vx - x) * alpha;
      y := y + (vy - y) * alpha;
      z := z + (vz - z) * alpha;
    }

    method Copy(v: Vector3)
      modifies this
      ensures Value() == old(v.Value())
    {
      x, y, z := v.x, v.y, v.z;
    }
  }

  /** The scene camera: its position vector, and the point its last lookAt aimed at. */
  class Camera {
    const position: Vector3
    var lookAtPoint: Vec3

    constructor (position: Vector3)
      ensures this.position == position && lookAtPoint == Zero
    {
      this.position := position;
      lookAtPoint := Zero;
    }

    method LookAt(x: real, y: real, z: real)
      modifies this
      ensures lookAtPoint == Vec3(x, y, z)
    {
      lookAtPoint := Vec3(x, y, z);
    }
  }
}

/** The camera follower (src/components/game/CameraController.tsx): each frame it places a
    target behind and above the car, moves a smoothed position 5% of the way to it, puts the
    camera there and aims it just above the car. */
module Camera {
  import opened Vectors
  import opened Numeric
  import opened Three

  /** Behind (+z) and above (+y) the car, in the car's frame. */
  const Offset := Vec3(0.0, 6.0, 12.0)
  const Smoothing := 0.05
  /** The point the camera aims at is this far above the car's origin. */
  const Aim := Vec3(0.0, 1.0, 0.0)

  /** The camera's desired position: the car position plus applyEuler of the offset and the
      car's rotation triple. `applyEuler` stands for THREE's Vector3.applyEuler called with a
      plain {x, y, z} object cast to an Euler, whatever the library makes of that. */
  function Target(carPosition: Vec3, carRotation: Vec3, applyEuler: (Vec3, Vec3) -> Vec3): (t: Vec3)
    ensures Sub(t, carPosition) == applyEuler(Offset, carRotation)
  {
    Add(carPosition, applyEuler(Offset, carRotation))
  }

  /** The smoothed position after `n` frames toward a target that stays put; a camera
      already on the target stays there. */
  function Follow(current: Vec3, target: Vec3, n: nat): (r: Vec3)
    ensures current == target ==> r == target
  {
    if n == 0 then current else Lerp(Follow(current, target, n - 1), target, Smoothing)
  }

  /** Geometric convergence: after n frames the gap to a fixed target is 0.95^n times the
      gap at the start, coordinate by coordinate. */
  lemma {:induction false} FollowGap(current: Vec3, target: Vec3, n: nat)
    ensures Sub(target, Follow(current, target, n)) == Scale(Pow(1.0 - Smoothing, n), Sub(target, current))
  {
    if n > 0 {
      FollowGap(current, target, n - 1);
      var g := Sub(target, current);
      var k := Pow(1.0 - Smoothing, n - 1);
      calc {
        Sub(target, Follow(current, target, n));
        Scale(1.0 - Smoothing, Sub(target, Follow(current, target, n - 1)));
        Scale(1.0 - Smoothing, Scale(k, g));
        { ScaleScale(1.0 - Smoothing, k, g); }
        Scale((1.0 - Smoothing) * k, g);
      }
    }
  }

  lemma ScaleScale(a: real, b: real, v: Vec3)
    ensures Scale(a, Scale(b, v)) == Scale(a * b, v)
  {
    assert a * (b * v.x) == (a * b) * v.x;
    assert a * (b * v.y) == (a * b) * v.y;
    assert a * (b * v.z) == (a * b) * v.z;
  }

  /** The factor 0.95^n lies in (0, 1] and shrinks strictly with every frame. */
  lemma {:induction false} DecayFactor(n: nat)
    ensures 0.0 < Pow(1.0 - Smoothing, n) <= 1.0
    ensures Pow(1.0 - Smoothing, n + 1) < Pow(1.0 - Smoothing, n)
  {
    if n > 0 {
      DecayFactor(n - 1);
    }
  }

  /** Every smoothed position lies between where the camera was and the target. */
  lemma {:induction false} FollowOnSegment(current: Vec3, target: Vec3, n: nat)
    ensures OnSegment(current, Follow(current, target, n), target)
  {
    FollowGap(current, target, n);
    DecayFactor(n);
    var k := Pow(1.0 - Smoothing, n);
    var m := Follow(current, target, n);
    assert m == Lerp(current, target, 1.0 - k) by {
      var l := Lerp(current, target, 1.0 - k);
      assert Sub(target, l) == Scale(k, Sub(target, current));
      assert m.x == l.x && m.y == l.y && m.z == l.z;
    }
    LerpOnSegment(current, target, 1.0 - k);
  }

  /** The camera is never put on the raw target while it is elsewhere: one smoothing step
      from a different point falls short of the target. */
  lemma SmoothingLags(current: Vec3, target: Vec3)
    requires current != target
    ensures Lerp(current, target, Smoothing) != target
  {
    var l := Lerp(current, target, Smoothing);
    if l == target {
      assert false;
    }
  }

  /** The follower's persistent state: the target and the smoothed position, two vectors it
      owns, and the scene camera it moves. */
  class CameraController {
    const camera: Camera
    const targetPosition: Vector3
    const currentPosition: Vector3

    ghost predicate Valid()
      reads this
    {
      targetPosition != currentPosition
      && camera.position != targetPosition
      && camera.position != currentPosition
    }

    /** Both vectors start at the origin. */
    constructor (camera: Camera)
      ensures Valid() && this.camera == camera
      ensures fresh(targetPosition) && fresh(currentPosition)
      ensures targetPosition.Value() == Zero && currentPosition.Value() == Zero
    {
      this.camera := camera;
      targetPosition := new Vector3(0.0, 0.0, 0.0);
      currentPosition := new Vector3(0.0, 0.0, 0.0);
    }

    /** One useFrame step. */
    method Frame(carPosition: Vec3, carRotation: Vec3, applyEuler: (Vec3, Vec3) -> Vec3)
      requires Valid()
      modifies targetPosition, currentPosition, camera.position, camera
      ensures Valid()
      ensures targetPosition.Value() == Target(carPosition, carRotation, applyEuler)
      ensures currentPosition.Value() == Lerp(old(currentPosition.Value()), targetPosition.Value(), Smoothing)
      ensures camera.position.Value() == currentPosition.Value()
      ensures camera.lookAtPoint == Add(carPosition, Aim)
    {
      var offset := applyEuler(Offset, carRotation);
      targetPosition.Set(carPosition.x + offset.x, carPosition.y + offset.y, carPosition.z + offset.z);
      currentPosition.Lerp(targetPosition, Smoothing);
      camera.position.Copy(currentPosition);
      camera.LookAt(carPosition.x, carPosition.y + 1.0, carPosition.z);
    }
  }
}
