/** Option and Result, the usual failure-carrying wrappers. */
module Wrappers {
  datatype Option<+T> = None | Some(value: T)

  datatype Result<+T, +E> = Success(value: T) | Failure(error: E)
}

/** Three-component real vectors: the values carried by THREE.Vector3 and by the
    physics engine's [x, y, z] triples. */
module Vectors {
  datatype Vec3 = Vec3(x: real, y: real, z: real)

  const Zero := Vec3(0.0, 0.0, 0.0)

  function Add(a: Vec3, b: Vec3): Vec3 {
    Vec3(a.x + b.x, a.y + b.y, a.z + b.z)
  }

  function Sub(a: Vec3, b: Vec3): Vec3 {
    Vec3(a.x - b.x, a.y - b.y, a.z - b.z)
  }

  function Scale(k: real, a: Vec3): Vec3 {
    Vec3(k * a.x, k * a.y, k * a.z)
  }

  function Dot(a: Vec3, b: Vec3): real {
    a.x * b.x + a.y * b.y + a.z * b.z
  }

  /** `m` lies on the closed segment between `a` and `b` (per coordinate). */
  predicate Between(a: real, m: real, b: real) {
    (a <= m <= b) || (b <= m <= a)
  }

  predicate OnSegment(a: Vec3, m: Vec3, b: Vec3) {
    Between(a.x, m.x, b.x) && Between(a.y, m.y, b.y) && Between(a.z, m.z, b.z)
  }

  /** THREE's Vector3.lerp: every coordinate moves by `alpha` of the way to `b`. */
  function Lerp(a: Vec3, b: Vec3, alpha: real): (r: Vec3)
    ensures Sub(b, r) == Scale(1.0 - alpha, Sub(b, a))
    ensures alpha == 1.0 ==> r == b
    ensures a == b ==> r == a
  {
    Vec3(a.x + (b.x - a.x) * alpha, a.y + (b.y - a.y) * alpha, a.z + (b.z - a.z) * alpha)
  }

  /** With a blend factor in [0, 1] the interpolated point lies between the two ends. */
  lemma LerpOnSegment(a: Vec3, b: Vec3, alpha: real)
    requires 0.0 <= alpha <= 1.0
    ensures OnSegment(a, Lerp(a, b, alpha), b)
  {
    StepBetween(a.x, b.x, alpha);
    StepBetween(a.y, b.y, alpha);
    StepBetween(a.z, b.z, alpha);
  }

  lemma StepBetween(a: real, b: real, alpha: real)
    requires 0.0 <= alpha <= 1.0
    ensures Between(a, a + (b - a) * alpha, b)
  {
    var t := (b - a) * alpha;
    if a <= b {
      FractionBounds(b - a, alpha, t);
    } else {
      FractionBounds(a - b, alpha, -t);
    }
  }

  lemma FractionBounds(d: real, alpha: real, t: real)
    requires d >= 0.0 && 0.0 <= alpha <= 1.0 && t == d * alpha
    ensures 0.0 <= t <= d
  {
    assert d - t == d * (1.0 - alpha);
  }
}

/** The calls the components make into the rigid-body engine, recorded as values
    instead of being carried out. */
module Physics {
  import opened Vectors

  datatype Command =
    | ApplyForce(force: Vec3, worldPoint: Vec3)
    | ApplyLocalForce(force: Vec3, localPoint: Vec3)
    | ApplyTorque(torque: Vec3)

  /** What a guarded call contributes to a frame's command list: the call when its guard
      holds, nothing otherwise. */
  function Issue(guard: bool, c: Command): (r: seq<Command>)
    ensures forall d :: d in r <==> guard && d == c
    ensures |r| <= 1
  {
    if guard then [c] else []
  }
}

/** The scalar helpers shared by the car components. */
module Numeric {
  function Min(a: real, b: real): real { if a <= b then a else b }

  function Max(a: real, b: real): real { if a >= b then a else b }

  function Abs(a: real): real { if a >= 0.0 then a else -a }

  /** JavaScript's Math.round: the nearest integer, a half rounded toward +infinity. */
  function Round(x: real): (r: int)
    ensures r as real - 0.5 <= x < r as real + 0.5
  {
    (x + 0.5).Floor
  }

  /** b to the power n. */
  function Pow(b: real, n: nat): real {
    if n == 0 then 1.0 else b * Pow(b, n - 1)
  }

  /** `s` is the value Math.sqrt returns for `x`. */
  predicate IsSqrt(s: real, x: real) {
    s >= 0.0 && s * s == x
  }

  /** The car speed reported to the game state: Math.round(speed * 3.6), km/h from m/s. */
  function DisplaySpeed(speed: real): (r: int)
    requires speed >= 0.0
    ensures r >= 0
    ensures r as real - 0.5 <= speed * 3.6 < r as real + 0.5
  {
    Round(speed * 3.6)
  }
}
