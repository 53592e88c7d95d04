/**
 * The wind panel of the dashboard (components/wind-section.tsx): the
 * displayed output and efficiency, and the animation state of its canvas —
 * 100 drifting particles that wrap at the canvas edges and three turbines
 * whose rotor angles advance each frame.
 */
module WindSection {
  import opened JsMath

  /** energyOutput: the wind speed as a percentage of 50 m/s, rounded. */
  function EnergyOutput(windSpeed: real): int {
    Round(windSpeed / 50.0 * 100.0)
  }

  /** Over the slider's range of 0 to 50 m/s the output is a percentage, growing with the speed. */
  lemma EnergyOutputRange(s1: real, s2: real)
    requires 0.0 <= s1 <= s2 <= 50.0
    ensures 0 <= EnergyOutput(s1) <= EnergyOutput(s2) <= 100
    ensures EnergyOutput(0.0) == 0 && EnergyOutput(50.0) == 100
  {
    RoundMonotone(s1 / 50.0 * 100.0, s2 / 50.0 * 100.0);
    RoundBetween(s1 / 50.0 * 100.0, 0, 100);
    RoundBetween(s2 / 50.0 * 100.0, 0, 100);
    RoundOfInteger(0);
    RoundOfInteger(100);
  }

  /** efficiency: 90 minus half the distance of (direction % 180) from 90, rounded. */
  function Efficiency(windDirection: real): int {
    Round(90.0 - Abs(TruncRem(windDirection, 180.0) - 90.0) / 2.0)
  }

  /** For any non-negative direction the efficiency lies in [45, 90]. */
  lemma EfficiencyRange(d: real)
    requires d >= 0.0
    ensures 45 <= Efficiency(d) <= 90
  {
    RoundBetween(90.0 - Abs(TruncRem(d, 180.0) - 90.0) / 2.0, 45, 90);
  }

  /** The efficiency peaks at 90° and 270°, and opposite directions are equally good. */
  lemma EfficiencyShape(d: real)
    requires d >= 0.0
    ensures Efficiency(90.0) == 90 && Efficiency(270.0) == 90
    ensures Efficiency(d + 180.0) == Efficiency(d)
  {
    TruncRemSmall(90.0, 180.0);
    TruncRemShift(90.0, 180.0);
    RoundOfInteger(90);
    TruncRemShift(d, 180.0);
  }

  /**
   * directionFactor with JavaScript's remainder: 1 − |((d − 90) % 360) − 180| / 180.
   * Between 90° and 360° it lies in [0, 1] and peaks at 270°, although 90°
   * is called the optimal direction; below 90° the remainder is negative
   * and so is the factor.
   */
  function DirectionFactor(windDirection: real): (f: real)
  {
    1.0 - Abs(TruncRem(windDirection - 90.0, 360.0) - 180.0) / 180.0
  }

  lemma DirectionFactorShape(d: real)
    ensures 90.0 <= d <= 360.0 ==> 0.0 <= DirectionFactor(d) <= 1.0
    ensures 90.0 <= d <= 360.0 ==> DirectionFactor(d) == 1.0 - Abs(d - 270.0) / 180.0
    ensures -270.0 < d < 90.0 ==> DirectionFactor(d) == (d - 90.0) / 180.0 < 0.0
    ensures DirectionFactor(270.0) == 1.0 && DirectionFactor(90.0) == 0.0 && DirectionFactor(0.0) == -0.5
  {
    if -270.0 < d < 360.0 {
      TruncRemSmall(d - 90.0, 360.0);
    }
    TruncRemSmall(180.0, 360.0);
    TruncRemSmall(0.0, 360.0);
    TruncRemSmall(-90.0, 360.0);
  }

  /** rotationSpeed: a fifth of the wind speed, scaled by the direction factor. */
  function RotationSpeed(windSpeed: real, windDirection: real): (speed: real)
    ensures windSpeed == 0.0 ==> speed == 0.0
  {
    windSpeed / 5.0 * DirectionFactor(windDirection)
  }

  /** A wind particle; its speed and size are drawn once. */
  datatype Particle = Particle(x: real, y: real, speed: real, size: real)

  /** A coordinate that left [0, limit] re-enters at the opposite edge. */
  function Wrap(v: real, limit: real): (r: real)
    requires limit >= 0.0
    ensures 0.0 <= r <= limit
    ensures 0.0 <= v <= limit ==> r == v
  {
    var r := if v < 0.0 then limit else v;
    if r > limit then 0.0 else r
  }

  /** One frame of a particle: it moves with the wind, then wraps. */
  function StepParticle(p: Particle, windSpeed: real, windDirection: real, m: Transcendentals, width: real, height: real)
    : (q: Particle)
    requires width >= 0.0 && height >= 0.0
    ensures q.speed == p.speed && q.size == p.size
    ensures 0.0 <= q.x <= width && 0.0 <= q.y <= height
  {
    var drift := p.speed * windSpeed / 15.0;
    var x := p.x + drift * m.cos(windDirection * m.pi / 180.0);
    var y := p.y + drift * m.sin(windDirection * m.pi / 180.0);
    p.(x := Wrap(x, width), y := Wrap(y, height))
  }

  /** Without wind a particle inside the canvas stays where it is. */
  lemma StepParticleCalm(p: Particle, windDirection: real, m: Transcendentals, width: real, height: real)
    requires width >= 0.0 && height >= 0.0
    requires 0.0 <= p.x <= width && 0.0 <= p.y <= height
    ensures StepParticle(p, 0.0, windDirection, m, width, height) == p
  {
    var drift := p.speed * 0.0 / 15.0;
    assert drift == 0.0;
  }

  const PARTICLE_COUNT := 100
  const TURBINE_COUNT := 3

  predicate InCanvas(p: Particle, width: real, height: real) {
    0.0 <= p.x <= width && 0.0 <= p.y <= height
  }

  class WindScene {
    const width: real
    const height: real
    const particles: array<Particle>
    const rotationAngles: array<real>
    var lastTime: real

    ghost predicate Valid()
      reads this, particles
    {
      && width >= 0.0 && height >= 0.0
      && particles.Length == PARTICLE_COUNT
      && rotationAngles.Length == TURBINE_COUNT
      && forall i :: 0 <= i < particles.Length ==>
           InCanvas(particles[i], width, height)
           && 1.0 <= particles[i].speed <= 3.0 && 1.0 <= particles[i].size <= 4.0
    }

    /**
     * The scene of a canvas. `draws` stands for the calls to Math.random,
     * four per particle, each in [0, 1).
     */
    constructor (width: real, height: real, draws: seq<real>)
      requires width >= 0.0 && height >= 0.0
      requires |draws| == 4 * PARTICLE_COUNT
      requires forall k :: 0 <= k < |draws| ==> 0.0 <= draws[k] < 1.0
      ensures Valid() && fresh(particles) && fresh(rotationAngles)
      ensures this.width == width && this.height == height
      ensures forall i :: 0 <= i < TURBINE_COUNT ==> rotationAngles[i] == 0.0
      ensures lastTime == 0.0
    {
      this.width := width;
      this.height := height;
      var ps := new Particle[PARTICLE_COUNT](_ => Particle(0.0, 0.0, 1.0, 1.0));
      var i := 0;
      while i < PARTICLE_COUNT
        invariant 0 <= i <= PARTICLE_COUNT
        invariant forall j :: 0 <= j < PARTICLE_COUNT ==>
          InCanvas(ps[j], width, height) && 1.0 <= ps[j].speed <= 3.0 && 1.0 <= ps[j].size <= 4.0
      {
        var r0, r1, r2, r3 := draws[4 * i], draws[4 * i + 1], draws[4 * i + 2], draws[4 * i + 3];
        ScaledDraw(r0, width);
        ScaledDraw(r1, height);
        ps[i] := Particle(r0 * width, r1 * height, r2 * 2.0 + 1.0, r3 * 3.0 + 1.0);
        i := i + 1;
      }
      particles := ps;
      rotationAngles := new real[TURBINE_COUNT](_ => 0.0);
      lastTime := 0.0;
    }

    /**
     * One animation frame at `time`: every particle moves and wraps, every
     * rotor advances by rotationSpeed · deltaTime / 50.
     */
    method Animate(time: real, windSpeed: real, windDirection: real, m: Transcendentals)
      requires Valid()
      modifies this, particles, rotationAngles
      ensures Valid()
      ensures lastTime == time
      ensures forall i :: 0 <= i < particles.Length ==>
        particles[i] == StepParticle(old(particles[i]), windSpeed, windDirection, m, width, height)
      ensures forall i :: 0 <= i < rotationAngles.Length ==>
        rotationAngles[i] == old(rotationAngles[i]) + RotationSpeed(windSpeed, windDirection) * (time - old(lastTime)) / 50.0
    {
      var deltaTime := time - lastTime;
      lastTime := time;

      var i := 0;
      while i < particles.Length
        modifies particles
        invariant 0 <= i <= particles.Length
        invariant forall j :: 0 <= j < i ==>
          particles[j] == StepParticle(old(particles[j]), windSpeed, windDirection, m, width, height)
        invariant forall j :: i <= j < particles.Length ==> particles[j] == old(particles[j])
        invariant forall j :: 0 <= j < particles.Length ==>
          InCanvas(particles[j], width, height)
          && 1.0 <= particles[j].speed <= 3.0 && 1.0 <= particles[j].size <= 4.0
      {
        particles[i] := StepParticle(particles[i], windSpeed, windDirection, m, width, height);
        i := i + 1;
      }

      var t := 0;
      while t < TURBINE_COUNT
        modifies rotationAngles
        invariant 0 <= t <= TURBINE_COUNT
        invariant forall j :: 0 <= j < t ==>
          rotationAngles[j] == old(rotationAngles[j]) + RotationSpeed(windSpeed, windDirection) * deltaTime / 50.0
        invariant forall j :: t <= j < TURBINE_COUNT ==> rotationAngles[j] == old(rotationAngles[j])
      {
        var directionFactor := 1.0 - Abs(TruncRem(windDirection - 90.0, 360.0) - 180.0) / 180.0;
        var rotationSpeed := windSpeed / 5.0 * directionFactor;
        rotationAngles[t] := rotationAngles[t] + rotationSpeed * deltaTime / 50.0;
        t := t + 1;
      }
    }
  }
}
