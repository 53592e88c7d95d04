/**
 * The solar panel of the dashboard (components/solar-section.tsx): the
 * displayed output and efficiency, and the canvas scene — the sun's
 * position by its angle, the panels' tilt, the rays drawn onto the panels,
 * and the clouds, created one per 20% of cloud cover and drifting right
 * with a wrap-around.
 */
module SolarSection {
  import opened JsMath

  /** The unrounded output: intensity × angle factor (90 − |a − 45|)/90 × clear share (100 − c)/100. */
  function RawOutput(sunIntensity: real, sunAngle: real, cloudCover: real): real {
    sunIntensity * (90.0 - Abs(sunAngle - 45.0)) / 90.0 * (100.0 - cloudCover) / 100.0
  }

  /** energyOutput */
  function EnergyOutput(sunIntensity: real, sunAngle: real, cloudCover: real): int {
    Round(RawOutput(sunIntensity, sunAngle, cloudCover))
  }

  /** The ranges of the control panel's sliders. */
  predicate InRanges(sunIntensity: real, sunAngle: real, cloudCover: real) {
    0.0 <= sunIntensity <= 100.0 && 0.0 <= sunAngle <= 90.0 && 0.0 <= cloudCover <= 100.0
  }

  lemma ProductBound(x: real, xMax: real, y: real, yMax: real)
    requires 0.0 <= x <= xMax && 0.0 <= y <= yMax
    ensures 0.0 <= x * y <= xMax * yMax
  {
    MulMonotone(x, 0.0, y);
    MulMonotone(x, y, yMax);
    MulMonotone(yMax, x, xMax);
  }

  /**
   * On the sliders' ranges the output is a percentage; a fully clouded or
   * dark sky gives 0; for a given intensity and cover a 45° sun gives the
   * most.
   */
  lemma EnergyOutputShape(sunIntensity: real, sunAngle: real, cloudCover: real)
    requires InRanges(sunIntensity, sunAngle, cloudCover)
    ensures 0 <= EnergyOutput(sunIntensity, sunAngle, cloudCover) <= 100
    ensures cloudCover == 100.0 || sunIntensity == 0.0 ==> EnergyOutput(sunIntensity, sunAngle, cloudCover) == 0
    ensures EnergyOutput(sunIntensity, sunAngle, cloudCover) <= EnergyOutput(sunIntensity, 45.0, cloudCover)
  {
    var angleFactor := 90.0 - Abs(sunAngle - 45.0);
    var clear := 100.0 - cloudCover;
    var p := sunIntensity * angleFactor;
    ProductBound(sunIntensity, 100.0, angleFactor, 90.0);
    ProductBound(p / 90.0, 100.0, clear, 100.0);
    RoundBetween(RawOutput(sunIntensity, sunAngle, cloudCover), 0, 100);
    MulMonotone(sunIntensity, angleFactor, 90.0);
    MulMonotone(clear, p / 90.0, sunIntensity * 90.0 / 90.0);
    assert RawOutput(sunIntensity, sunAngle, cloudCover) <= RawOutput(sunIntensity, 45.0, cloudCover);
    RoundMonotone(RawOutput(sunIntensity, sunAngle, cloudCover), RawOutput(sunIntensity, 45.0, cloudCover));
    if cloudCover == 100.0 || sunIntensity == 0.0 {
      assert RawOutput(sunIntensity, sunAngle, cloudCover) == 0.0;
      RoundOfInteger(0);
    }
  }

  /** efficiency: 100 less half the cloud cover and half the angle's distance from 45°, rounded. */
  function Efficiency(sunAngle: real, cloudCover: real): int {
    Round(100.0 - cloudCover / 2.0 - Abs(sunAngle - 45.0) / 2.0)
  }

  lemma EfficiencyRange(sunAngle: real, cloudCover: real)
    requires 0.0 <= sunAngle <= 90.0 && 0.0 <= cloudCover <= 100.0
    ensures 28 <= Efficiency(sunAngle, cloudCover) <= 100
    ensures Efficiency(45.0, 0.0) == 100 && Efficiency(0.0, 100.0) == 28
  {
    RoundOfInteger(100);
  }

  /** cloudCount: one cloud, plus one per full 20% of cover. */
  function CloudCount(cloudCover: real): int {
    (cloudCover / 20.0).Floor + 1
  }

  lemma CloudCountRange(cloudCover: real)
    requires 0.0 <= cloudCover <= 100.0
    ensures 1 <= CloudCount(cloudCover) <= 6
    ensures CloudCount(0.0) == 1 && CloudCount(100.0) == 6
  {
  }

  /** The sun's centre: it moves right and up as its angle grows. */
  function SunPosition(width: real, height: real, sunAngle: real): (real, real) {
    (width * 0.2 + width * 0.6 * sunAngle / 90.0, height * 0.6 - height * 0.5 * sunAngle / 90.0)
  }

  lemma SunPositionBounds(width: real, height: real, sunAngle: real)
    requires width >= 0.0 && height >= 0.0 && 0.0 <= sunAngle <= 90.0
    ensures var (x, y) := SunPosition(width, height, sunAngle);
      && width * 0.2 <= x <= width * 0.8
      && height * 0.1 <= y <= height * 0.6
  {
    ProductBound(width * 0.6, width * 0.6, sunAngle, 90.0);
    ProductBound(height * 0.5, height * 0.5, sunAngle, 90.0);
  }

  /** The panels' tilt in degrees: 0.8 of the sun's angle, kept within [10, 80]. */
  function PanelAngle(sunAngle: real): (degrees: real)
    ensures 10.0 <= degrees <= 80.0
    ensures 12.5 <= sunAngle <= 100.0 ==> degrees == sunAngle * 0.8
  {
    Min(Max(sunAngle * 0.8, 10.0), 80.0)
  }

  /** Rays reach the panels only in a bright sky that is not mostly clouded. */
  predicate RaysShown(sunIntensity: real, cloudCover: real) {
    sunIntensity > 20.0 && cloudCover < 80.0
  }

  function RayOpacity(sunIntensity: real, cloudCover: real): real {
    sunIntensity / 100.0 * (1.0 - cloudCover / 100.0)
  }

  /** When rays are drawn their opacity is positive and at most 1. */
  lemma RayOpacityRange(sunIntensity: real, cloudCover: real)
    requires RaysShown(sunIntensity, cloudCover)
    requires sunIntensity <= 100.0 && cloudCover >= 0.0
    ensures 0.0 < RayOpacity(sunIntensity, cloudCover) <= 1.0
  {
    ProductBound(sunIntensity / 100.0, 1.0, 1.0 - cloudCover / 100.0, 1.0);
    MulStrict(sunIntensity / 100.0, 0.0, 1.0 - cloudCover / 100.0);
  }

  datatype Cloud = Cloud(x: real, y: real, width: real, height: real, speed: real)

  /** One frame of a cloud: it drifts by its speed and re-enters at −width after passing the right edge. */
  function DriftCloud(c: Cloud, canvasWidth: real): (d: Cloud)
    ensures d.y == c.y && d.width == c.width && d.height == c.height && d.speed == c.speed
  {
    var x := c.x + c.speed;
    c.(x := if x > canvasWidth + c.width then -c.width else x)
  }

  /** The band a drifting cloud never leaves. */
  predicate InBand(c: Cloud, canvasWidth: real) {
    -c.width <= c.x <= canvasWidth + c.width
  }

  lemma DriftStaysInBand(c: Cloud, canvasWidth: real)
    requires c.speed >= 0.0 && InBand(c, canvasWidth)
    ensures InBand(DriftCloud(c, canvasWidth), canvasWidth)
  {
  }

  predicate CloudShape(c: Cloud) {
    50.0 <= c.width < 150.0 && 20.0 <= c.height < 60.0 && 0.1 <= c.speed < 0.6
  }

  /** The cloud pushed for five random draws r, each in [0, 1). */
  function NewCloud(r: seq<real>, canvasWidth: real, canvasHeight: real): (c: Cloud)
    requires |r| == 5 && forall k :: 0 <= k < 5 ==> 0.0 <= r[k] < 1.0
    requires canvasWidth >= 0.0
    ensures CloudShape(c) && 0.0 <= c.x <= canvasWidth
  {
    ScaledDraw(r[0], canvasWidth);
    assert r[0] * canvasWidth <= canvasWidth;
    assert 50.0 <= r[2] * 100.0 + 50.0 < 150.0;
    assert 20.0 <= r[3] * 40.0 + 20.0 < 60.0;
    assert 0.1 <= r[4] * 0.5 + 0.1 < 0.6;
    Cloud(r[0] * canvasWidth, r[1] * (canvasHeight * 0.5), r[2] * 100.0 + 50.0,
      r[3] * 40.0 + 20.0, r[4] * 0.5 + 0.1)
  }

  class SolarScene {
    const canvasWidth: real
    const canvasHeight: real
    const clouds: array<Cloud>

    ghost predicate Valid()
      reads this, clouds
    {
      && canvasWidth >= 0.0 && canvasHeight >= 0.0
      && forall i :: 0 <= i < clouds.Length ==> CloudShape(clouds[i]) && InBand(clouds[i], canvasWidth)
    }

    /**
     * The scene for a cloud cover on the slider's range. `draws` stands for
     * the calls to Math.random, five per cloud, each in [0, 1).
     */
    constructor (canvasWidth: real, canvasHeight: real, cloudCover: real, draws: seq<real>)
      requires canvasWidth >= 0.0 && canvasHeight >= 0.0
      requires 0.0 <= cloudCover <= 100.0
      requires |draws| == 5 * CloudCount(cloudCover)
      requires forall k :: 0 <= k < |draws| ==> 0.0 <= draws[k] < 1.0
      ensures Valid() && fresh(clouds)
      ensures clouds.Length == CloudCount(cloudCover)
      ensures this.canvasWidth == canvasWidth && this.canvasHeight == canvasHeight
      ensures forall i :: 0 <= i < clouds.Length ==> 0.0 <= clouds[i].x <= canvasWidth
    {
      this.canvasWidth := canvasWidth;
      this.canvasHeight := canvasHeight;
      CloudCountRange(cloudCover);
      var cloudCount := CloudCount(cloudCover);
      var cs := new Cloud[cloudCount](_ => Cloud(0.0, 0.0, 50.0, 20.0, 0.1));
      var i := 0;
      while i < cloudCount
        invariant 0 <= i <= cloudCount
        invariant forall j :: 0 <= j < cloudCount ==>
          CloudShape(cs[j]) && 0.0 <= cs[j].x <= canvasWidth
      {
        var r := draws[5 * i .. 5 * i + 5];
        assert forall k :: 0 <= k < 5 ==> r[k] == draws[5 * i + k];
        cs[i] := NewCloud(r, canvasWidth, canvasHeight);
        i := i + 1;
      }
      clouds := cs;
    }

    /** The cloud update of one animation frame. */
    method Animate()
      requires Valid()
      modifies clouds
      ensures Valid()
      ensures forall i :: 0 <= i < clouds.Length ==> clouds[i] == DriftCloud(old(clouds[i]), canvasWidth)
    {
      var i := 0;
      while i < clouds.Length
        invariant 0 <= i <= clouds.Length
        invariant forall j :: 0 <= j < i ==> clouds[j] == DriftCloud(old(clouds[j]), canvasWidth)
        invariant forall j :: i <= j < clouds.Length ==> clouds[j] == old(clouds[j])
        invariant forall j :: 0 <= j < clouds.Length ==> CloudShape(clouds[j]) && InBand(clouds[j], canvasWidth)
      {
        DriftStaysInBand(clouds[i], canvasWidth);
        var cloud := clouds[i];
        var x := cloud.x + cloud.speed;
        if x > canvasWidth + cloud.width {
          x := -cloud.width;
        }
        clouds[i] := cloud.(x := x);
        i := i + 1;
      }
    }
  }
}
