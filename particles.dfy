/**
 * The particle field (src/components/HeroModels/Particles.jsx): the particle
 * budget, the render gate, the flat xyz position buffer, and the per-frame
 * update that skips frames and moves only the y coordinates.
 * Random draws are inputs; coordinates are exact reals (Float32 rounding is not modelled).
 */
module Particles {
  import opened Options
  import opened Tiers
  import opened PerformanceContext

  /** The `count` prop's default. */
  const DefaultCount := 200
  /** Below this many particles nothing is rendered. */
  const MinRenderedCount := 5

  function Min(a: int, b: int): int {
    if a <= b then a else b
  }

  /**
   * `actualCount`: `Math.floor(Math.min(count, budget) * (isLowTier ? 0.3 : 1))`,
   * with the 0.3 factor taken as the exact ratio 3/10.
   */
  function ActualCount(count: int, budget: int, isLowTier: bool): (n: int)
    ensures !isLowTier ==> n == Min(count, budget)
    ensures isLowTier ==> 10 * n <= 3 * Min(count, budget) < 10 * n + 10
    ensures 0 <= Min(count, budget) ==> 0 <= n <= count && n <= budget
  {
    var m := Min(count, budget);
    if isLowTier then (m * 3) / 10 else m
  }

  /** The render gate: nothing is drawn below five particles. */
  predicate Renders(actualCount: int) {
    actualCount >= MinRenderedCount
  }

  /** At LOW the budget is 20, so a field renders exactly when its `count` prop is at least 17. */
  lemma LowTierRendersFromSeventeen(count: int, d: Detection, o: Option<Tier>, v: Viewport)
    requires ProviderValue(d, o, v).isLowTier
    ensures Renders(ActualCount(count, ProviderValue(d, o, v).settings.particleCount, true)) <==> count >= 17
  {
    assert ProviderValue(d, o, v).settings.particleCount == 20;
  }

  /** The particle budget the default field gets under each provider outcome. */
  lemma DefaultCountsPerTier(d: Detection, o: Option<Tier>, width: int)
    ensures var v := ProviderValue(d, o, Classify(width));
      var n := ActualCount(DefaultCount, v.settings.particleCount, v.isLowTier);
      && (v.tier == Low ==> n == 6)
      && (v.tier == Medium ==> n == 50)
      && (v.tier == High && v.viewport.isTablet ==> n == 70)
      && (v.tier == High && !v.viewport.isTablet ==> n == 100)
      && Renders(n)
  {
  }

  /** Under a provider value, a LOW field never gets more than 6 particles, whatever the prop. */
  lemma LowTierCountBound(count: int, d: Detection, o: Option<Tier>, v: Viewport)
    requires ProviderValue(d, o, v).isLowTier
    ensures ActualCount(count, ProviderValue(d, o, v).settings.particleCount, true) <= 6
  {
  }

  /** Four `Math.random()` draws, each in [0, 1). */
  datatype Draw = Draw(r0: real, r1: real, r2: real, r3: real)

  predicate DrawInRange(d: Draw) {
    0.0 <= d.r0 < 1.0 && 0.0 <= d.r1 < 1.0 && 0.0 <= d.r2 < 1.0 && 0.0 <= d.r3 < 1.0
  }

  datatype Particle = Particle(x: real, y: real, z: real, speed: real)

  /** One pushed particle: x, z in [-5, 5), y in [5, 15), speed in [0.005, 0.006). */
  function NewParticle(d: Draw): Particle {
    Particle((d.r0 - 0.5) * 10.0, d.r1 * 10.0 + 5.0, (d.r2 - 0.5) * 10.0, 0.005 + d.r3 * 0.001)
  }

  /** A fresh particle starts high up and always falls. */
  lemma NewParticleBounds(d: Draw)
    requires DrawInRange(d)
    ensures 5.0 <= NewParticle(d).y < 15.0
    ensures -5.0 <= NewParticle(d).x < 5.0 && -5.0 <= NewParticle(d).z < 5.0
    ensures 0.005 <= NewParticle(d).speed < 0.006
  {
  }

  /** The `particles` memo: one particle per draw, `actualCount` of them (none when it is not positive). */
  method MakeParticles(actualCount: int, draws: seq<Draw>) returns (ps: seq<Particle>)
    requires actualCount <= |draws|
    ensures |ps| == if actualCount < 0 then 0 else actualCount
    ensures forall i :: 0 <= i < |ps| ==> ps[i] == NewParticle(draws[i])
  {
    ps := [];
    var i := 0;
    while i < actualCount
      invariant 0 <= i <= if actualCount < 0 then 0 else actualCount
      invariant i <= |draws|
      invariant |ps| == i
      invariant forall j :: 0 <= j < i ==> ps[j] == NewParticle(draws[j])
    {
      ps := ps + [NewParticle(draws[i])];
      i := i + 1;
    }
  }

  /** The `positions` memo: a buffer of 3 slots per particle, holding x, y, z in that order. */
  method FillPositions(ps: seq<Particle>) returns (buf: array<real>)
    ensures fresh(buf) && buf.Length == 3 * |ps|
    ensures forall i :: 0 <= i < |ps| ==>
      buf[3 * i] == ps[i].x && buf[3 * i + 1] == ps[i].y && buf[3 * i + 2] == ps[i].z
  {
    buf := new real[3 * |ps|];
    var i := 0;
    while i < |ps|
      invariant 0 <= i <= |ps|
      invariant forall j :: 0 <= j < i ==>
        buf[3 * j] == ps[j].x && buf[3 * j + 1] == ps[j].y && buf[3 * j + 2] == ps[j].z
    {
      buf[3 * i] := ps[i].x;
      buf[3 * i + 1] := ps[i].y;
      buf[3 * i + 2] := ps[i].z;
      i := i + 1;
    }
  }

  /** The frame counter after one frame: `(frameCount + 1) % updateFrequency`. */
  function NextFrameCount(frameCount: int, updateFrequency: int): (c: int)
    requires updateFrequency >= 1
    ensures 0 <= c < updateFrequency
    ensures 0 <= frameCount < updateFrequency - 1 ==> c == frameCount + 1
    ensures frameCount == updateFrequency - 1 ==> c == 0
  {
    (frameCount + 1) % updateFrequency
  }

  /** The counter after `k` frames from `start`. */
  function CountAfter(start: int, updateFrequency: int, k: nat): int
    requires updateFrequency >= 1
  {
    if k == 0 then start else NextFrameCount(CountAfter(start, updateFrequency, k - 1), updateFrequency)
  }

  /** Quotient and remainder are determined by any decomposition with the remainder in range. */
  lemma DivModUnique(k: int, f: int, q: int, r: int)
    requires f >= 1 && 0 <= r < f && k == q * f + r
    ensures k / f == q && k % f == r
  {
    var q', r' := k / f, k % f;
    assert q' * f + r' == k;
    assert (q - q') * f == r' - r;
    var d := q - q';
    if d >= 1 {
      MulAtLeast(d, f);
    } else if d <= -1 {
      MulAtLeast(-d, f);
    }
  }

  lemma MulAtLeast(d: int, f: int)
    requires d >= 1 && f >= 1
    ensures d * f >= f
  {
  }

  /** One more frame: the remainder steps as the counter does, and the quotient grows exactly on wrap-around. */
  lemma DivModStep(f: int, k: int)
    requires f >= 1 && k >= 1
    ensures k % f == NextFrameCount((k - 1) % f, f)
    ensures k / f == (k - 1) / f + (if k % f == 0 then 1 else 0)
  {
    var q, p := (k - 1) / f, (k - 1) % f;
    assert k - 1 == q * f + p && 0 <= p < f;
    if p == f - 1 {
      assert (q + 1) * f == q * f + f;
      DivModUnique(k, f, q + 1, 0);
    } else {
      DivModUnique(k, f, q, p + 1);
    }
  }

  /** From zero, the counter after `k` frames is `k % updateFrequency`. */
  lemma {:induction false} CountAfterFromZero(updateFrequency: int, k: nat)
    requires updateFrequency >= 1
    ensures CountAfter(0, updateFrequency, k) == k % updateFrequency
  {
    if k > 0 {
      CountAfterFromZero(updateFrequency, k - 1);
      DivModStep(updateFrequency, k);
    }
  }

  /** How many of the first `k` frames (from a zero counter) run the update body. */
  function UpdatesIn(updateFrequency: int, k: nat): nat
    requires updateFrequency >= 1
  {
    if k == 0 then 0
    else UpdatesIn(updateFrequency, k - 1) + (if CountAfter(0, updateFrequency, k) == 0 then 1 else 0)
  }

  /** The update body runs exactly once every `updateFrequency` frames. */
  lemma {:induction false} OneUpdatePerPeriod(updateFrequency: int, k: nat)
    requires updateFrequency >= 1
    ensures UpdatesIn(updateFrequency, k) == k / updateFrequency
  {
    if k > 0 {
      OneUpdatePerPeriod(updateFrequency, k - 1);
      CountAfterFromZero(updateFrequency, k);
      DivModStep(updateFrequency, k);
    }
  }

  /** A falling y: down by `speed`, re-seeded at `Math.random() * 10 + 5` once below -2. */
  function FallY(y: real, speed: real, reseed: real): (y': real)
    ensures y - speed >= -2.0 ==> y' == y - speed
    ensures y - speed < -2.0 ==> y' == reseed * 10.0 + 5.0
  {
    var next := y - speed;
    if next < -2.0 then reseed * 10.0 + 5.0 else next
  }

  /** With a positive speed, y strictly drops unless it was re-seeded into [5, 15). */
  lemma FallYDropsOrReseeds(y: real, speed: real, reseed: real)
    requires speed > 0.0 && 0.0 <= reseed < 1.0
    ensures FallY(y, speed, reseed) < y || 5.0 <= FallY(y, speed, reseed) < 15.0
  {
  }

  /** A mounted particle field: its particles, its position buffer and the frame counter ref. */
  class ParticleField {
    const particles: seq<Particle>
    const positions: array<real>
    var frameCount: int

    ghost predicate Valid()
      reads this
    {
      positions.Length == 3 * |particles|
    }

    constructor (ps: seq<Particle>, buf: array<real>)
      requires buf.Length == 3 * |ps|
      ensures Valid() && particles == ps && positions == buf && frameCount == 0
    {
      particles := ps;
      positions := buf;
      frameCount := 0;
    }

    /**
     * The `useFrame` callback. The counter advances modulo the cadence; only on a zero
     * count, and only when the mesh's position attribute exists, each particle's y slot
     * falls while its x and z slots stay as they were.
     */
    method OnFrame(updateFrequency: int, meshReady: bool, reseeds: seq<real>) returns (updated: bool)
      requires Valid() && updateFrequency >= 1 && |reseeds| >= |particles|
      modifies this, positions
      ensures Valid()
      ensures frameCount == NextFrameCount(old(frameCount), updateFrequency)
      ensures updated <==> frameCount == 0 && meshReady
      ensures !updated ==> positions[..] == old(positions[..])
      ensures updated ==> forall i :: 0 <= i < |particles| ==>
        && positions[3 * i] == old(positions[3 * i])
        && positions[3 * i + 2] == old(positions[3 * i + 2])
        && positions[3 * i + 1] == FallY(old(positions[3 * i + 1]), particles[i].speed, reseeds[i])
    {
      frameCount := (frameCount + 1) % updateFrequency;
      if frameCount != 0 || !meshReady {
        return false;
      }
      var i := 0;
      while i < |particles|
        modifies positions
        invariant 0 <= i <= |particles|
        invariant forall j :: 0 <= j < |particles| ==>
          positions[3 * j] == old(positions[3 * j]) && positions[3 * j + 2] == old(positions[3 * j + 2])
        invariant forall j :: 0 <= j < i ==>
          positions[3 * j + 1] == FallY(old(positions[3 * j + 1]), particles[j].speed, reseeds[j])
        invariant forall j :: i <= j < |particles| ==> positions[3 * j + 1] == old(positions[3 * j + 1])
      {
        var y := positions[3 * i + 1];
        y := y - particles[i].speed;
        if y < -2.0 {
          y := reseeds[i] * 10.0 + 5.0;
        }
        positions[3 * i + 1] := y;
        i := i + 1;
      }
      updated := true;
    }
  }
}
