/**
 * The geographic estimators of the heuristic location analyzer: the
 * coastal-proximity score (a scan over sixteen coastal reference points),
 * the altitude score (a base altitude per terrain with a synthetic
 * perturbation), the seasonal wind factor and the seasonal variation step
 * by latitude, and the latitude adjustment of the solar score.
 */
module GeoFactors {
  import opened Wrappers
  import opened JsMath
  import opened TerrainCatalog

  datatype Point = Point(lat: real, lng: real)

  /** The coastal reference points: cities on the coasts of six continents. */
  const COASTAL_POINTS: seq<Point> := [
    Point(37.7749, -122.4194),  // San Francisco
    Point(34.0522, -118.2437),  // Los Angeles
    Point(47.6062, -122.3321),  // Seattle
    Point(40.7128, -74.006),    // New York
    Point(42.3601, -71.0589),   // Boston
    Point(25.7617, -80.1918),   // Miami
    Point(51.5074, -0.1278),    // London
    Point(41.9028, 12.4964),    // Rome
    Point(55.6761, 12.5683),    // Copenhagen
    Point(35.6762, 139.6503),   // Tokyo
    Point(22.3193, 114.1694),   // Hong Kong
    Point(1.3521, 103.8198),    // Singapore
    Point(-33.8688, 151.2093),  // Sydney
    Point(-37.8136, 144.9631),  // Melbourne
    Point(-22.9068, -43.1729),  // Rio de Janeiro
    Point(-12.0464, -77.0428)   // Lima
  ]

  /** Number.MAX_VALUE, the starting value of the minimum search. */
  const MAX_VALUE: real := 1.7976931348623157e308

  function Square(x: real): (r: real)
    ensures r >= 0.0
  {
    x * x
  }

  /**
   * The flat-earth distance in kilometres: 111 km per degree of latitude,
   * and per degree of longitude scaled by the cosine of the latitude.
   */
  function Distance(lat: real, lng: real, p: Point, m: Transcendentals): (d: real)
    requires m.Sound()
    ensures d >= 0.0
  {
    m.sqrt(Square((lat - p.lat) * 111.0) + Square((lng - p.lng) * 111.0 * m.cos(lat * m.pi / 180.0)))
  }

  /** `Math.min` folded over the points from left to right, starting at MAX_VALUE. */
  function NearestDistance(lat: real, lng: real, points: seq<Point>, m: Transcendentals): real
    requires m.Sound()
  {
    if points == [] then MAX_VALUE
    else Min(NearestDistance(lat, lng, points[..|points| - 1], m), Distance(lat, lng, points[|points| - 1], m))
  }

  /**
   * The fold finds the least distance: it is no larger than the distance to
   * any point, and it is the distance to one of them unless there are none.
   */
  lemma {:induction false} NearestIsMinimum(lat: real, lng: real, points: seq<Point>, m: Transcendentals)
    requires m.Sound()
    ensures var d := NearestDistance(lat, lng, points, m);
      && 0.0 <= d <= MAX_VALUE
      && (forall i :: 0 <= i < |points| ==> d <= Distance(lat, lng, points[i], m))
      && (points != [] && d < MAX_VALUE ==> exists i :: 0 <= i < |points| && d == Distance(lat, lng, points[i], m))
  {
    if points != [] {
      var init := points[..|points| - 1];
      NearestIsMinimum(lat, lng, init, m);
      var d := NearestDistance(lat, lng, points, m);
      var last := |points| - 1;
      forall i | 0 <= i < |points|
        ensures d <= Distance(lat, lng, points[i], m)
      {
        if i < last {
          assert points[i] == init[i];
        }
      }
      if d < MAX_VALUE && d != Distance(lat, lng, points[last], m) {
        var j :| 0 <= j < |init| && NearestDistance(lat, lng, init, m) == Distance(lat, lng, init[j], m);
        assert points[j] == init[j];
      }
    }
  }

  /** 0 km scores 100, 1000 km and beyond score 0, linearly in between. */
  function CoastalScore(distance: real): (r: real)
    requires distance >= 0.0
    ensures 0.0 <= r <= 100.0
    ensures r == 0.0 <==> distance >= 1000.0
  {
    Max(0.0, 100.0 - distance / 10.0)
  }

  /** Nearer coasts never score less. */
  lemma CoastalScoreAntitone(d1: real, d2: real)
    requires 0.0 <= d1 <= d2
    ensures CoastalScore(d1) >= CoastalScore(d2)
  {
  }

  /** calculateCoastalProximity as a value. */
  function CoastalFactor(lat: real, lng: real, m: Transcendentals): (r: real)
    requires m.Sound()
    ensures 0.0 <= r <= 100.0
  {
    NearestIsMinimum(lat, lng, COASTAL_POINTS, m);
    CoastalScore(NearestDistance(lat, lng, COASTAL_POINTS, m))
  }

  /** calculateCoastalProximity: the scan over the coastal points. */
  method CoastalProximity(lat: real, lng: real, m: Transcendentals) returns (coastalFactor: real)
    requires m.Sound()
    ensures coastalFactor == CoastalFactor(lat, lng, m)
  {
    var points := COASTAL_POINTS;
    var minDistance := MAX_VALUE;
    var i := 0;
    while i < |points|
      invariant 0 <= i <= |points|
      invariant minDistance == NearestDistance(lat, lng, points[..i], m)
    {
      var distance := Distance(lat, lng, points[i], m);
      assert points[..i + 1][..i] == points[..i];
      minDistance := Min(minDistance, distance);
      i := i + 1;
    }
    assert points[..i] == points;
    NearestIsMinimum(lat, lng, points, m);
    coastalFactor := CoastalScore(minDistance);
  }

  /** Standing on a coastal reference point gives the full score. */
  lemma CoastalFactorAtReference(i: nat, m: Transcendentals)
    requires m.Sound() && i < |COASTAL_POINTS|
    ensures CoastalFactor(COASTAL_POINTS[i].lat, COASTAL_POINTS[i].lng, m) == 100.0
  {
    var p := COASTAL_POINTS[i];
    assert Square((p.lat - p.lat) * 111.0) + Square((p.lng - p.lng) * 111.0 * m.cos(p.lat * m.pi / 180.0)) == 0.0;
    assert Distance(p.lat, p.lng, p, m) == 0.0;
    NearestIsMinimum(p.lat, p.lng, COASTAL_POINTS, m);
  }

  /**
   * The altitude score of an altitude in metres: linear up to 3000 m, then
   * falling by 30 points per 2000 m, clamped to [0, 100].
   */
  function AltitudeScore(altitude: real): (r: real)
    ensures 0.0 <= r <= 100.0
  {
    var factor := if altitude <= 3000.0 then altitude / 3000.0 * 100.0
      else 100.0 - (altitude - 3000.0) / 2000.0 * 30.0;
    Clamp(0.0, 100.0, factor)
  }

  /** The score rises up to 3000 m, where it peaks at 100, and falls beyond. */
  lemma AltitudeScoreShape(a: real, b: real)
    ensures AltitudeScore(3000.0) == 100.0
    ensures a <= b <= 3000.0 ==> AltitudeScore(a) <= AltitudeScore(b)
    ensures 3000.0 <= a <= b ==> AltitudeScore(a) >= AltitudeScore(b)
    ensures 0.0 <= a <= 3000.0 ==> AltitudeScore(a) == a / 30.0
  {
  }

  /** The synthetic altitude: the terrain's base plus sin(lat/10)·300 + cos(lng/10)·300. */
  function PerturbedAltitude(lat: real, lng: real, t: Terrain, m: Transcendentals): (metres: real)
    requires m.Sound()
    ensures BaseAltitude(t) - 600.0 <= metres <= BaseAltitude(t) + 600.0
  {
    BaseAltitude(t) + m.sin(lat * 0.1) * 300.0 + m.cos(lng * 0.1) * 300.0
  }

  /**
   * estimateAltitude. A string that is not a terrain key has no base
   * altitude; the sum is then NaN, modelled as None.
   */
  function EstimateAltitude(lat: real, lng: real, key: string, m: Transcendentals): (r: Option<real>)
    requires m.Sound()
    ensures r.Some? <==> IsTerrainKey(key)
    ensures r.Some? ==> 0.0 <= r.value <= 100.0
  {
    match Parse(key)
    case None => None
    case Some(t) => Some(AltitudeScore(PerturbedAltitude(lat, lng, t, m)))
  }

  /**
   * No perturbed altitude exceeds 2600 m, so the decaying branch above
   * 3000 m is never taken; the score lies in the band the terrain's base
   * altitude allows, ±600 m.
   */
  lemma EstimateAltitudeBand(lat: real, lng: real, t: Terrain, m: Transcendentals)
    requires m.Sound()
    ensures PerturbedAltitude(lat, lng, t, m) <= 2600.0
    ensures var r := EstimateAltitude(lat, lng, Key(t), m);
      && r.Some?
      && AltitudeScore(BaseAltitude(t) - 600.0) <= r.value <= AltitudeScore(BaseAltitude(t) + 600.0)
  {
    ParseKey(t);
    var a := PerturbedAltitude(lat, lng, t, m);
    AltitudeScoreShape(BaseAltitude(t) - 600.0, a);
    AltitudeScoreShape(a, BaseAltitude(t) + 600.0);
  }

  /**
   * calculateSeasonalWindFactor: steady trade winds below 30°, the jet
   * stream belt peaking towards 60°, variable polar winds beyond.
   */
  function SeasonalWindFactor(lat: real): (r: real)
    ensures r < 95.0
    ensures Abs(lat) <= 90.0 ==> 70.0 <= r
  {
    var absLat := Abs(lat);
    if absLat < 30.0 then 70.0 + absLat / 30.0 * 20.0
    else if absLat < 60.0 then 80.0 + (absLat - 30.0) / 30.0 * 15.0
    else 90.0 - (absLat - 60.0) / 30.0 * 10.0
  }

  /** The factor depends on the distance from the equator only. */
  lemma SeasonalWindFactorSymmetric(lat: real)
    ensures SeasonalWindFactor(-lat) == SeasonalWindFactor(lat)
  {
  }

  /**
   * The three bands: tropics in [70, 90), mid-latitudes in [80, 95), polar
   * regions in [80, 90]. The factor falls back as a band boundary is
   * crossed: by more than 7 points at 30° and more than 3 points at 60°.
   */
  lemma SeasonalWindFactorBands(lat: real)
    ensures Abs(lat) < 30.0 ==> 70.0 <= SeasonalWindFactor(lat) < 90.0
    ensures 30.0 <= Abs(lat) < 60.0 ==> 80.0 <= SeasonalWindFactor(lat) < 95.0
    ensures 60.0 <= Abs(lat) <= 90.0 ==> 80.0 <= SeasonalWindFactor(lat) <= 90.0
    ensures SeasonalWindFactor(30.0) == 80.0 && SeasonalWindFactor(60.0) == 90.0
    ensures 27.0 <= Abs(lat) < 30.0 ==> SeasonalWindFactor(lat) > SeasonalWindFactor(30.0) + 7.0
    ensures 57.0 <= Abs(lat) < 60.0 ==> SeasonalWindFactor(lat) > SeasonalWindFactor(60.0) + 3.0
  {
  }

  /** The seasonal variation step: 85 beyond 30° of latitude, 70 up to it. */
  function SeasonalVariation(lat: real): real {
    if Abs(lat) > 30.0 then 85.0 else 70.0
  }

  /** Farther from the equator never gives less variation. */
  lemma SeasonalVariationMonotone(a: real, b: real)
    requires Abs(a) <= Abs(b)
    ensures SeasonalVariation(a) <= SeasonalVariation(b)
  {
  }

  /**
   * The latitude adjustment of the heuristic solar score: a cosine term, a
   * seasonal term and a day-length term, weighted 0.6, 0.25 and 0.15 and
   * scaled to 30 points.
   */
  function SolarLatitudeAdjustment(absLat: real, m: Transcendentals): (r: real)
    requires m.Sound() && absLat >= 0.0
    ensures r <= 30.0
  {
    var cosFactor := m.cos(absLat * (m.pi / 180.0));
    var seasonalSolarFactor := 1.0 - absLat / 90.0 * 0.3;
    var dayLengthFactor := 1.0 - absLat / 90.0 * 0.2;
    (cosFactor * 0.6 + seasonalSolarFactor * 0.25 + dayLengthFactor * 0.15) * 30.0
  }

  /** The heuristic solar score: base potential plus adjustment minus 0.3 per degree, clamped. */
  function HeuristicSolarScore(key: string, lat: real, m: Transcendentals): (r: real)
    requires m.Sound()
    ensures 0.0 <= r <= 100.0
    ensures r <= Max(0.0, SolarLookup(key).base as real + 30.0 - Abs(lat) * 0.3)
  {
    var absLat := Abs(lat);
    Clamp(0.0, 100.0, SolarLookup(key).base as real + SolarLatitudeAdjustment(absLat, m) - absLat * 0.3)
  }

  /** On the equator the adjustment is the full 30 points. */
  lemma HeuristicSolarAtEquator(key: string, m: Transcendentals)
    requires m.Sound()
    ensures HeuristicSolarScore(key, 0.0, m) == Min(100.0, SolarLookup(key).base as real + 30.0)
  {
    assert 0.0 * (m.pi / 180.0) == 0.0;
  }
}
