/** The wheel-particle effect (src/components/game/ParticleSystem.tsx): each frame it emits
    particles at the four wheels according to the integer speed shown on the HUD, then ages,
    moves and filters the live particles and rebuilds the geometry buffers. Math.random is
    an oracle `rng`, whose i-th value is the i-th call's result. */
module Particles {
  import opened Vectors

  /** One particle. Its colour is kept as the hex code passed to THREE.Color. */
  datatype Particle = Particle(
    position: Vec3, velocity: Vec3, size: real, lifetime: real, maxLifetime: real, color: int)

  /** Every value Math.random can return lies in [0, 1). */
  ghost predicate IsOracle(rng: nat -> real) {
    forall i: nat :: 0.0 <= rng(i) < 1.0
  }

  /** The particles and the index of the next unused random draw. */
  datatype Emission = Emission(particles: seq<Particle>, next: nat)

  /** Every particle is still alive and has a positive life span. */
  predicate Live(ps: seq<Particle>) {
    forall p :: p in ps ==> 0.0 <= p.lifetime < p.maxLifetime
  }

  function SpreadFactor(isDrift: bool): real { if isDrift then 0.5 else 0.2 }

  function LifeFactor(isDrift: bool): real { if isDrift then 1.5 else 1.0 }

  /** The particle createParticle builds, from the eight draws starting at `k`: two for the
      position, three for the velocity, one each for size, life span and colour. */
  function NewParticle(x: real, y: real, z: real, isDrift: bool, rng: nat -> real, k: nat): (p: Particle)
    requires IsOracle(rng)
    ensures p.lifetime == 0.0 < p.maxLifetime
  {
    var spread := SpreadFactor(isDrift);
    assert 0.0 <= rng(k + 6);
    Particle(
      Vec3(x + (rng(k) - 0.5) * spread, y - 0.35, z + (rng(k + 1) - 0.5) * spread),
      Vec3((rng(k + 2) - 0.5) * 0.1, rng(k + 3) * 0.1, (rng(k + 4) - 0.5) * 0.1),
      if isDrift then 0.8 + rng(k + 5) * 0.4 else 0.3 + rng(k + 5) * 0.3,
      0.0,
      (0.5 + rng(k + 6) * 1.0) * LifeFactor(isDrift),
      if isDrift then (if rng(k + 7) > 0.5 then 0xff5500 else 0xff0000)
      else (if rng(k + 7) > 0.7 then 0x00ffff else 0xcccccc))
  }

  /** A new particle starts with lifetime 0 and a life span of (0.5 + r) times the life
      factor, r in [0, 1); it appears 0.35 below the given point, within half the spread of
      it on x and z, and drifts upward. */
  lemma NewParticleFields(x: real, y: real, z: real, isDrift: bool, rng: nat -> real, k: nat)
    requires IsOracle(rng)
    ensures var p := NewParticle(x, y, z, isDrift, rng, k);
      && p.lifetime == 0.0
      && 0.5 * LifeFactor(isDrift) <= p.maxLifetime < 1.5 * LifeFactor(isDrift)
      && p.position.y == y - 0.35
      && -SpreadFactor(isDrift) / 2.0 <= p.position.x - x < SpreadFactor(isDrift) / 2.0
      && -SpreadFactor(isDrift) / 2.0 <= p.position.z - z < SpreadFactor(isDrift) / 2.0
      && 0.0 <= p.velocity.y < 0.1
  {
    assert 0.0 <= rng(k) < 1.0 && 0.0 <= rng(k + 1) < 1.0;
    assert 0.0 <= rng(k + 3) < 1.0 && 0.0 <= rng(k + 6) < 1.0;
  }

  /** createParticle: a non-drift particle below speed 5 is refused before any draw; then a
      draw above 0.7 refuses it; otherwise the new particle is pushed. */
  function Create(e: Emission, x: real, y: real, z: real, isDrift: bool, speed: int, rng: nat -> real): (r: Emission)
    requires IsOracle(rng)
    ensures r.particles == e.particles || r.particles == e.particles + [NewParticle(x, y, z, isDrift, rng, e.next + 1)]
    ensures speed < 5 && !isDrift ==> r == e
    ensures !(speed < 5 && !isDrift) && rng(e.next) > 0.7 ==> r == Emission(e.particles, e.next + 1)
    ensures !(speed < 5 && !isDrift) && rng(e.next) <= 0.7 ==>
      r == Emission(e.particles + [NewParticle(x, y, z, isDrift, rng, e.next + 1)], e.next + 9)
    ensures e.next <= r.next <= e.next + 9
    ensures Live(e.particles) ==> Live(r.particles)
  {
    if speed < 5 && !isDrift then e
    else if rng(e.next) > 0.7 then Emission(e.particles, e.next + 1)
    else Emission(e.particles + [NewParticle(x, y, z, isDrift, rng, e.next + 1)], e.next + 9)
  }

  /** The wheel positions relative to the car: front left, front right, rear left, rear right. */
  const WheelOffsets: seq<Vec3> := [
    Vec3(-0.9, 0.0, 1.5), Vec3(0.9, 0.0, 1.5), Vec3(-0.9, 0.0, -1.5), Vec3(0.9, 0.0, -1.5)]

  /** The draw a wheel must exceed before createParticle is even called. */
  function WheelThreshold(isDrift: bool): real { if isDrift then 0.7 else 0.85 }

  /** Whether wheel `j`, drawing from index `k`, adds a particle: its draw exceeds the
      wheel threshold, createParticle's speed gate lets it through, and createParticle's own
      draw is at most 0.7. */
  ghost predicate WheelFires(k: nat, isDrift: bool, speed: int, rng: nat -> real) {
    rng(k) > WheelThreshold(isDrift) && !(speed < 5 && !isDrift) && rng(k + 1) <= 0.7
  }

  /** One wheel's turn in the forEach: a draw, then createParticle at the wheel if it passes.
      A wheel that does not fire adds nothing, and one whose first draw fails uses only that
      draw. */
  function AtWheel(e: Emission, carPosition: Vec3, j: nat, isDrift: bool, speed: int, rng: nat -> real): (r: Emission)
    requires j < |WheelOffsets| && IsOracle(rng)
    ensures !WheelFires(e.next, isDrift, speed, rng) ==> r.particles == e.particles
    ensures rng(e.next) <= WheelThreshold(isDrift) ==> r.next == e.next + 1
  {
    var skipped := Emission(e.particles, e.next + 1);
    if rng(e.next) > WheelThreshold(isDrift) then
      var w := Add(carPosition, WheelOffsets[j]);
      Create(skipped, w.x, w.y, w.z, isDrift, speed, rng)
    else skipped
  }

  /** A wheel that fires adds exactly one particle, the one built at its own position from
      the draws after the two gates, and uses ten draws in all. */
  lemma AtWheelFires(e: Emission, carPosition: Vec3, j: nat, isDrift: bool, speed: int, rng: nat -> real)
    requires j < |WheelOffsets| && IsOracle(rng) && WheelFires(e.next, isDrift, speed, rng)
    ensures var w := Add(carPosition, WheelOffsets[j]);
      AtWheel(e, carPosition, j, isDrift, speed, rng)
        == Emission(e.particles + [NewParticle(w.x, w.y, w.z, isDrift, rng, e.next + 2)], e.next + 10)
  {
  }

  /** The first `n` wheels of the forEach. */
  function Wheels(e: Emission, carPosition: Vec3, n: nat, isDrift: bool, speed: int, rng: nat -> real): (r: Emission)
    requires n <= |WheelOffsets| && IsOracle(rng)
    ensures |e.particles| <= |r.particles| <= |e.particles| + n
    ensures r.particles[..|e.particles|] == e.particles
    ensures e.next <= r.next
    ensures Live(e.particles) ==> Live(r.particles)
  {
    if n == 0 then e else AtWheel(Wheels(e, carPosition, n - 1, isDrift, speed, rng), carPosition, n - 1, isDrift, speed, rng)
  }

  datatype Style = DriftStyle | NormalStyle | NoEmission

  /** The branch each iteration of the emission loop takes. */
  function StyleOf(driftMode: bool, speed: int): (s: Style)
    ensures s == DriftStyle <==> driftMode || speed > 60
    ensures s == NormalStyle <==> !driftMode && 20 < speed <= 60
    ensures s == NoEmission <==> !driftMode && speed <= 20
  {
    if driftMode || speed > 60 then DriftStyle
    else if speed > 20 then NormalStyle
    else NoEmission
  }

  /** One iteration of the emission loop: at most one particle per wheel, appended after
      the existing ones; the quiet branch draws nothing. */
  function Round(e: Emission, carPosition: Vec3, driftMode: bool, speed: int, rng: nat -> real): (r: Emission)
    requires IsOracle(rng)
    ensures StyleOf(driftMode, speed) == NoEmission ==> r == e
    ensures |e.particles| <= |r.particles| <= |e.particles| + |WheelOffsets|
    ensures r.particles[..|e.particles|] == e.particles
  {
    match StyleOf(driftMode, speed)
    case DriftStyle => Wheels(e, carPosition, |WheelOffsets|, true, speed, rng)
    case NormalStyle => Wheels(e, carPosition, |WheelOffsets|, false, speed, rng)
    case NoEmission => e
  }

  /** The first `n` iterations of the emission loop. */
  function Rounds(e: Emission, carPosition: Vec3, driftMode: bool, speed: int, rng: nat -> real, n: nat): (r: Emission)
    requires IsOracle(rng)
    ensures |e.particles| <= |r.particles| <= |e.particles| + 4 * n
    ensures r.particles[..|e.particles|] == e.particles
    ensures e.next <= r.next
    ensures Live(e.particles) ==> Live(r.particles)
  {
    if n == 0 then e
    else
      var before := Rounds(e, carPosition, driftMode, speed, rng, n - 1);
      var after := Round(before, carPosition, driftMode, speed, rng);
      assert after.particles[..|e.particles|] == before.particles[..|before.particles|][..|e.particles|];
      after
  }

  /** Math.min(Math.floor(speed / 10), 5): the number of emission-loop iterations. */
  function EmitRate(speed: int): (r: nat)
    requires speed >= 0
    ensures r <= 5
    ensures r < 5 ==> r * 10 <= speed < r * 10 + 10
    ensures r == 5 <==> speed >= 50
  {
    if speed / 10 <= 5 then speed / 10 else 5
  }

  /** The emission part of a frame: at most 20 particles are appended, and the old ones
      keep their places. */
  function Emit(e: Emission, carPosition: Vec3, driftMode: bool, speed: int, rng: nat -> real): (r: Emission)
    requires speed >= 0 && IsOracle(rng)
    ensures |e.particles| <= |r.particles| <= |e.particles| + 20
    ensures r.particles[..|e.particles|] == e.particles
  {
    Rounds(e, carPosition, driftMode, speed, rng, EmitRate(speed))
  }

  /** With no drift and speed at most 20, every emission round takes the quiet branch:
      nothing is emitted and no random number is drawn. */
  lemma EmitQuiet(e: Emission, carPosition: Vec3, driftMode: bool, speed: int, rng: nat -> real)
    requires speed >= 0 && IsOracle(rng) && !driftMode && speed <= 20
    ensures Emit(e, carPosition, driftMode, speed, rng) == e
  {
    QuietRounds(e, carPosition, driftMode, speed, rng, EmitRate(speed));
  }

  lemma {:induction false} QuietRounds(e: Emission, carPosition: Vec3, driftMode: bool, speed: int, rng: nat -> real, n: nat)
    requires IsOracle(rng) && !driftMode && speed <= 20
    ensures Rounds(e, carPosition, driftMode, speed, rng, n) == e
  {
    if n > 0 {
      QuietRounds(e, carPosition, driftMode, speed, rng, n - 1);
    }
  }

  /** What every particle a frame emits looks like: lifetime 0, a life span of the branch's
      range, 0.35 below the car, and within reach of a wheel (0.9 across and 1.5 along the
      car, plus half the spread). */
  predicate Spawned(p: Particle, carPosition: Vec3, isDrift: bool) {
    && p.lifetime == 0.0
    && 0.5 * LifeFactor(isDrift) <= p.maxLifetime < 1.5 * LifeFactor(isDrift)
    && p.position.y == carPosition.y - 0.35
    && -0.9 - SpreadFactor(isDrift) / 2.0 <= p.position.x - carPosition.x < 0.9 + SpreadFactor(isDrift) / 2.0
    && -1.5 - SpreadFactor(isDrift) / 2.0 <= p.position.z - carPosition.z < 1.5 + SpreadFactor(isDrift) / 2.0
  }

  /** Every particle from index `from` on is Spawned. */
  predicate SpawnedAfter(ps: seq<Particle>, from: nat, carPosition: Vec3, isDrift: bool) {
    forall i :: from <= i < |ps| ==> Spawned(ps[i], carPosition, isDrift)
  }

  /** A particle created at a wheel is Spawned. */
  lemma WheelParticleSpawned(carPosition: Vec3, j: nat, isDrift: bool, rng: nat -> real, k: nat)
    requires j < |WheelOffsets| && IsOracle(rng)
    ensures var w := Add(carPosition, WheelOffsets[j]);
      Spawned(NewParticle(w.x, w.y, w.z, isDrift, rng, k), carPosition, isDrift)
  {
    var w := Add(carPosition, WheelOffsets[j]);
    NewParticleFields(w.x, w.y, w.z, isDrift, rng, k);
    var o := WheelOffsets[j];
    assert o.y == 0.0 && -0.9 <= o.x <= 0.9 && -1.5 <= o.z <= 1.5 by {
      assert j == 0 || j == 1 || j == 2 || j == 3;
    }
    assert w == Vec3(carPosition.x + o.x, carPosition.y + o.y, carPosition.z + o.z);
  }

  /** Appending a Spawned particle keeps the suffix Spawned. */
  lemma SpawnedAppend(ps: seq<Particle>, from: nat, p: Particle, carPosition: Vec3, isDrift: bool)
    requires from <= |ps| && SpawnedAfter(ps, from, carPosition, isDrift) && Spawned(p, carPosition, isDrift)
    ensures SpawnedAfter(ps + [p], from, carPosition, isDrift)
  {
    forall i | from <= i < |ps + [p]|
      ensures Spawned((ps + [p])[i], carPosition, isDrift)
    {
      if i < |ps| {
        assert (ps + [p])[i] == ps[i];
      }
    }
  }

  /** One wheel's turn keeps the appended particles Spawned. */
  lemma AtWheelSpawn(e: Emission, from: nat, carPosition: Vec3, j: nat, isDrift: bool, speed: int, rng: nat -> real)
    requires j < |WheelOffsets| && IsOracle(rng)
    requires from <= |e.particles| && SpawnedAfter(e.particles, from, carPosition, isDrift)
    ensures SpawnedAfter(AtWheel(e, carPosition, j, isDrift, speed, rng).particles, from, carPosition, isDrift)
  {
    if WheelFires(e.next, isDrift, speed, rng) {
      var w := Add(carPosition, WheelOffsets[j]);
      AtWheelFires(e, carPosition, j, isDrift, speed, rng);
      WheelParticleSpawned(carPosition, j, isDrift, rng, e.next + 2);
      SpawnedAppend(e.particles, from, NewParticle(w.x, w.y, w.z, isDrift, rng, e.next + 2), carPosition, isDrift);
    }
  }

  /** Every particle the wheel pass appends is Spawned. */
  lemma {:induction false} WheelsSpawn(e: Emission, carPosition: Vec3, n: nat, isDrift: bool, speed: int, rng: nat -> real)
    requires n <= |WheelOffsets| && IsOracle(rng)
    ensures SpawnedAfter(Wheels(e, carPosition, n, isDrift, speed, rng).particles, |e.particles|, carPosition, isDrift)
  {
    if n > 0 {
      var before := Wheels(e, carPosition, n - 1, isDrift, speed, rng);
      WheelsSpawn(e, carPosition, n - 1, isDrift, speed, rng);
      AtWheelSpawn(before, |e.particles|, carPosition, n - 1, isDrift, speed, rng);
    }
  }

  /** One iteration of the emission loop keeps the appended particles Spawned. */
  lemma RoundSpawn(e: Emission, from: nat, carPosition: Vec3, driftMode: bool, speed: int, rng: nat -> real)
    requires IsOracle(rng) && from <= |e.particles|
    requires SpawnedAfter(e.particles, from, carPosition, StyleOf(driftMode, speed) == DriftStyle)
    ensures SpawnedAfter(Round(e, carPosition, driftMode, speed, rng).particles, from,
      carPosition, StyleOf(driftMode, speed) == DriftStyle)
  {
    var isDrift := StyleOf(driftMode, speed) == DriftStyle;
    var r := Round(e, carPosition, driftMode, speed, rng);
    if StyleOf(driftMode, speed) != NoEmission {
      WheelsSpawn(e, carPosition, |WheelOffsets|, isDrift, speed, rng);
      assert r == Wheels(e, carPosition, |WheelOffsets|, isDrift, speed, rng);
    }
    forall i | from <= i < |r.particles|
      ensures Spawned(r.particles[i], carPosition, isDrift)
    {
      if i < |e.particles| {
        assert r.particles[i] == r.particles[..|e.particles|][i];
      }
    }
  }

  /** Every particle the emission loop appends is Spawned, with the life span and spread of
      the branch the frame takes. */
  lemma {:induction false} RoundsSpawn(e: Emission, carPosition: Vec3, driftMode: bool, speed: int, rng: nat -> real, n: nat)
    requires IsOracle(rng)
    ensures SpawnedAfter(Rounds(e, carPosition, driftMode, speed, rng, n).particles, |e.particles|,
      carPosition, StyleOf(driftMode, speed) == DriftStyle)
  {
    if n > 0 {
      RoundsSpawn(e, carPosition, driftMode, speed, rng, n - 1);
      RoundSpawn(Rounds(e, carPosition, driftMode, speed, rng, n - 1), |e.particles|, carPosition, driftMode, speed, rng);
    }
  }

  /** Every particle a frame emits is Spawned: lifetime 0, the branch's life span, under the
      car and near a wheel. */
  lemma EmitSpawn(e: Emission, carPosition: Vec3, driftMode: bool, speed: int, rng: nat -> real)
    requires speed >= 0 && IsOracle(rng)
    ensures SpawnedAfter(Emit(e, carPosition, driftMode, speed, rng).particles, |e.particles|,
      carPosition, driftMode || speed > 60)
  {
    RoundsSpawn(e, carPosition, driftMode, speed, rng, EmitRate(speed));
    assert (StyleOf(driftMode, speed) == DriftStyle) == (driftMode || speed > 60);
  }

  /** The per-frame update of one particle: it ages by 0.016, its velocity gains 0.001
      upward and is then damped by 0.97 as a whole, and it moves by the new velocity. */
  function Advance(p: Particle): (q: Particle)
    ensures q.lifetime == p.lifetime + 0.016 && q.maxLifetime == p.maxLifetime
    ensures q.size == p.size && q.color == p.color
    ensures q.velocity.x == 0.97 * p.velocity.x && q.velocity.z == 0.97 * p.velocity.z
    ensures q.velocity.y == 0.97 * p.velocity.y + 0.00097
    ensures Sub(q.position, p.position) == q.velocity
  {
    var v := Scale(0.97, p.velocity.(y := p.velocity.y + 0.001));
    p.(lifetime := p.lifetime + 0.016, velocity := v, position := Add(p.position, v))
  }

  /** The filter's test on an updated particle. */
  predicate Alive(p: Particle) {
    p.lifetime < p.maxLifetime
  }

  /** The filtered list: each particle updated, kept iff it is still alive, in order. */
  function Survivors(ps: seq<Particle>): (r: seq<Particle>)
    ensures |r| <= |ps|
    ensures forall q :: q in r ==> Alive(q)
    ensures (forall p :: p in ps ==> p.lifetime >= 0.0) ==> Live(r)
  {
    if ps == [] then []
    else
      var q := Advance(ps[|ps| - 1]);
      Survivors(ps[..|ps| - 1]) + (if Alive(q) then [q] else [])
  }

  /** The filter distributes over concatenation, so survivors keep their relative order. */
  lemma {:induction false} SurvivorsConcat(a: seq<Particle>, b: seq<Particle>)
    ensures Survivors(a + b) == Survivors(a) + Survivors(b)
    decreases |b|
  {
    if b == [] {
      assert a + b == a;
    } else {
      var b' := b[..|b| - 1];
      assert (a + b)[..|a + b| - 1] == a + b';
      assert (a + b)[|a + b| - 1] == b[|b| - 1];
      SurvivorsConcat(a, b');
    }
  }

  /** A particle is in the filtered list exactly when it is the update of an old one that
      is still alive. */
  lemma {:induction false} SurvivorsMembers(ps: seq<Particle>, q: Particle)
    ensures q in Survivors(ps) <==> Alive(q) && exists p :: p in ps && q == Advance(p)
    decreases |ps|
  {
    if ps != [] {
      var init := ps[..|ps| - 1];
      var last := ps[|ps| - 1];
      SurvivorsMembers(init, q);
      assert ps == init + [last];
      if q in Survivors(ps) && !(q in Survivors(init)) {
        assert q == Advance(last) && last in ps;
      }
      if Alive(q) && exists p :: p in ps && q == Advance(p) {
        var p :| p in ps && q == Advance(p);
        if p != last {
          assert p in init;
        }
      }
    }
  }

  /** The position buffer: three coordinates for every particle processed, whether the
      filter keeps it or not. */
  function PositionBuffer(ps: seq<Particle>): (r: seq<real>)
    ensures |r| == 3 * |ps|
  {
    if ps == [] then []
    else
      var q := Advance(ps[|ps| - 1]);
      PositionBuffer(ps[..|ps| - 1]) + [q.position.x, q.position.y, q.position.z]
  }

  /** Entries 3i, 3i + 1 and 3i + 2 of the position buffer are the coordinates of the i-th
      particle after its update. */
  lemma {:induction false} PositionBufferAt(ps: seq<Particle>, i: nat)
    requires i < |ps|
    ensures PositionBuffer(ps)[3 * i] == Advance(ps[i]).position.x
    ensures PositionBuffer(ps)[3 * i + 1] == Advance(ps[i]).position.y
    ensures PositionBuffer(ps)[3 * i + 2] == Advance(ps[i]).position.z
    decreases |ps|
  {
    var init := ps[..|ps| - 1];
    if i < |ps| - 1 {
      assert ps[i] == init[i];
      PositionBufferAt(init, i);
    }
  }

  /** A particle's drawn size: its size scaled by the share of its life span left. */
  function ScaledSize(q: Particle): real
    requires q.maxLifetime > 0.0
  {
    q.size * (1.0 - q.lifetime / q.maxLifetime)
  }

  /** The size buffer: one entry for every particle processed, whether the filter keeps it
      or not. */
  function SizeBuffer(ps: seq<Particle>): (r: seq<real>)
    requires forall p :: p in ps ==> p.maxLifetime > 0.0
    ensures |r| == |ps|
  {
    if ps == [] then [] else SizeBuffer(ps[..|ps| - 1]) + [ScaledSize(Advance(ps[|ps| - 1]))]
  }

  /** A particle of positive size is drawn with a positive size exactly when the filter
      keeps it; the dropped ones get a size of at most zero in their last frame. */
  lemma {:induction false} SizeBufferSigns(ps: seq<Particle>, i: nat)
    requires forall p :: p in ps ==> p.maxLifetime > 0.0
    requires i < |ps| && ps[i].size > 0.0
    ensures SizeBuffer(ps)[i] > 0.0 <==> Alive(Advance(ps[i]))
    decreases |ps|
  {
    var init := ps[..|ps| - 1];
    if i < |ps| - 1 {
      assert ps[i] == init[i];
      SizeBufferSigns(init, i);
    } else {
      var q := Advance(ps[i]);
      ScaleSign(q.size, q.lifetime, q.maxLifetime);
    }
  }

  lemma ScaleSign(size: real, lifetime: real, maxLifetime: real)
    requires size > 0.0 && maxLifetime > 0.0
    ensures size * (1.0 - lifetime / maxLifetime) > 0.0 <==> lifetime < maxLifetime
  {
    var share := 1.0 - lifetime / maxLifetime;
    assert share * maxLifetime == maxLifetime - lifetime;
    if lifetime < maxLifetime {
      assert share > 0.0;
    } else {
      assert share <= 0.0;
      assert size * share <= 0.0;
    }
  }

  /** Extending the processed prefix by one particle extends each result by that
      particle's contribution. */
  lemma UnfoldSurvivors(ps: seq<Particle>, n: nat)
    requires n < |ps|
    ensures Survivors(ps[..n + 1]) == Survivors(ps[..n]) + (if Alive(Advance(ps[n])) then [Advance(ps[n])] else [])
  {
    var pre := ps[..n + 1];
    assert pre[..|pre| - 1] == ps[..n];
  }

  lemma UnfoldPositions(ps: seq<Particle>, n: nat)
    requires n < |ps|
    ensures var q := Advance(ps[n]);
      PositionBuffer(ps[..n + 1]) == PositionBuffer(ps[..n]) + [q.position.x, q.position.y, q.position.z]
  {
    var pre := ps[..n + 1];
    assert pre[..|pre| - 1] == ps[..n];
  }

  lemma UnfoldSizes(ps: seq<Particle>, n: nat)
    requires n < |ps|
    requires forall p :: p in ps ==> p.maxLifetime > 0.0
    ensures var q := Advance(ps[n]);
      SizeBuffer(ps[..n + 1]) == SizeBuffer(ps[..n]) + [ScaledSize(q)]
  {
    var pre := ps[..n + 1];
    assert pre[..|pre| - 1] == ps[..n];
    assert pre[|pre| - 1] == ps[n];
  }

  /** The component's persistent particle list and the geometry's position and size
      buffers. */
  class ParticleSystem {
    var particles: seq<Particle>
    var positionBuffer: seq<real>
    var sizeBuffer: seq<real>

    ghost predicate Valid()
      reads this
    {
      Live(particles)
    }

    constructor ()
      ensures Valid() && particles == [] && positionBuffer == [] && sizeBuffer == []
    {
      particles, positionBuffer, sizeBuffer := [], [], [];
    }

    /** createParticle, drawing from index `k` on; `speed` is the game state's speed. */
    method CreateParticle(x: real, y: real, z: real, isDrift: bool, speed: int, rng: nat -> real, k: nat)
      returns (next: nat)
      requires Valid() && IsOracle(rng)
      modifies this`particles
      ensures Valid()
      ensures Emission(particles, next) == Create(Emission(old(particles), k), x, y, z, isDrift, speed, rng)
    {
      next := k;
      ghost var e := Emission(particles, k);
      if speed < 5 && !isDrift {
        assert Create(e, x, y, z, isDrift, speed, rng) == e;
        return;
      }
      var gate := rng(next);
      next := next + 1;
      if gate > 0.7 {
        assert Create(e, x, y, z, isDrift, speed, rng) == Emission(particles, next);
        return;
      }
      var particle := NewParticle(x, y, z, isDrift, rng, next);
      next := next + 8;
      particles := particles + [particle];
    }

    /** One wheel's turn in the forEach callback. */
    method EmitAtWheel(carPosition: Vec3, j: nat, isDrift: bool, speed: int, rng: nat -> real, k: nat)
      returns (next: nat)
      requires j < |WheelOffsets|
      requires Valid() && IsOracle(rng)
      modifies this`particles
      ensures Valid()
      ensures Emission(particles, next) == AtWheel(Emission(old(particles), k), carPosition, j, isDrift, speed, rng)
    {
      var offset := WheelOffsets[j];
      var draw := rng(k);
      next := k + 1;
      if draw > WheelThreshold(isDrift) {
        var w := Add(carPosition, offset);
        next := CreateParticle(w.x, w.y, w.z, isDrift, speed, rng, next);
      }
    }

    /** The wheelOffsets.forEach of one emission iteration. */
    method EmitAtWheels(carPosition: Vec3, isDrift: bool, speed: int, rng: nat -> real, k: nat)
      returns (next: nat)
      requires Valid() && IsOracle(rng)
      modifies this`particles
      ensures Valid()
      ensures Emission(particles, next) == Wheels(Emission(old(particles), k), carPosition, |WheelOffsets|, isDrift, speed, rng)
    {
      next := k;
      ghost var start := Emission(particles, k);
      var j := 0;
      while j < |WheelOffsets|
        invariant 0 <= j <= |WheelOffsets|
        invariant Emission(particles, next) == Wheels(start, carPosition, j, isDrift, speed, rng)
      {
        next := EmitAtWheel(carPosition, j, isDrift, speed, rng, next);
        j := j + 1;
      }
    }

    /** The body of the filter callback that updates a particle in place, on a copy. */
    static method FilterCallback(p0: Particle) returns (p: Particle)
      ensures p == Advance(p0)
    {
      p := p0;
      p := p.(lifetime := p.lifetime + 0.016);
      p := p.(velocity := p.velocity.(y := p.velocity.y + 0.001));
      p := p.(velocity := Scale(0.97, p.velocity));
      p := p.(position := Add(p.position, p.velocity));
    }

    /** The filter pass: every particle is updated and written to the buffers, and only the
        live ones are kept. */
    method UpdateParticles()
      requires Valid()
      modifies this
      ensures Valid()
      ensures particles == Survivors(old(particles))
      ensures positionBuffer == PositionBuffer(old(particles))
      ensures sizeBuffer == SizeBuffer(old(particles))
    {
      var source := particles;
      assert forall p :: p in source ==> p.maxLifetime > 0.0;
      var kept: seq<Particle> := [];
      var positions: seq<real> := [];
      var sizes: seq<real> := [];
      var n := 0;
      while n < |source|
        invariant 0 <= n <= |source|
        invariant kept == Survivors(source[..n])
        invariant positions == PositionBuffer(source[..n])
        invariant forall p :: p in source[..n] ==> p.maxLifetime > 0.0
        invariant sizes == SizeBuffer(source[..n])
      {
        var p := FilterCallback(source[n]);
        UnfoldSurvivors(source, n);
        UnfoldPositions(source, n);
        UnfoldSizes(source, n);
        positions := positions + [p.position.x, p.position.y, p.position.z];
        sizes := sizes + [ScaledSize(p)];
        if p.lifetime < p.maxLifetime {
          kept := kept + [p];
        }
        n := n + 1;
      }
      assert source[..n] == source;
      particles := kept;
      positionBuffer := positions;
      sizeBuffer := sizes;
    }

    /** One iteration of the emission loop: the drift-style branch, the normal branch, or
        nothing. */
    method EmitRound(speed: int, driftMode: bool, carPosition: Vec3, rng: nat -> real, k0: nat)
      returns (k: nat)
      requires Valid() && IsOracle(rng)
      modifies this`particles
      ensures Valid()
      ensures Emission(particles, k) == Round(Emission(old(particles), k0), carPosition, driftMode, speed, rng)
    {
      k := k0;
      if driftMode || speed > 60 {
        k := EmitAtWheels(carPosition, true, speed, rng, k);
      } else if speed > 20 {
        k := EmitAtWheels(carPosition, false, speed, rng, k);
      }
    }

    /** The emission loop of a frame. */
    method EmitParticles(speed: int, driftMode: bool, carPosition: Vec3, rng: nat -> real, k0: nat)
      returns (k: nat)
      requires speed >= 1
      requires Valid() && IsOracle(rng)
      modifies this`particles
      ensures Valid()
      ensures Emission(particles, k) == Emit(Emission(old(particles), k0), carPosition, driftMode, speed, rng)
    {
      k := k0;
      var emitRate := if speed / 10 <= 5 then speed / 10 else 5;
      var i := 0;
      while i < emitRate
        invariant 0 <= i <= emitRate
        invariant Valid()
        invariant Emission(particles, k) == Rounds(Emission(old(particles), k0), carPosition, driftMode, speed, rng, i)
      {
        k := EmitRound(speed, driftMode, carPosition, rng, k);
        i := i + 1;
      }
    }

    /** One useFrame step, reading the game state's speed and the drift flag and drawing
        from index `k0` on. */
    method Frame(speed: int, driftMode: bool, carPosition: Vec3, rng: nat -> real, k0: nat)
      returns (k: nat)
      requires Valid() && IsOracle(rng)
      modifies this
      ensures Valid()
      ensures speed < 1 ==> particles == old(particles) && positionBuffer == old(positionBuffer)
      ensures speed < 1 ==> sizeBuffer == old(sizeBuffer) && k == k0
      ensures speed >= 1 ==>
        var e := Emit(Emission(old(particles), k0), carPosition, driftMode, speed, rng);
        && k == e.next
        && particles == Survivors(e.particles)
        && positionBuffer == PositionBuffer(e.particles)
        && sizeBuffer == SizeBuffer(e.particles)
    {
      k := k0;
      if speed < 1 {
        return;
      }
      k := EmitParticles(speed, driftMode, carPosition, rng, k);
      UpdateParticles();
    }
  }
}
