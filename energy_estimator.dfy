/**
 * The renewable-energy estimator (src/components/energy-estimator.tsx):
 * monthly kWh of a solar panel from the UV index and of a small turbine
 * from the wind speed, with efficiencies stepped by the reading, and the
 * savings, payback time and coverage of the household's consumption.
 * A reading is `number | null`; a null or zero reading is falsy and
 * produces nothing.
 */
module EnergyEstimator {
  import opened Wrappers
  import opened JsMath

  /** `if (!reading)`: absent or zero. */
  predicate Falsy(reading: Option<real>) {
    reading.None? || reading.value == 0.0
  }

  /** dynamicSolarEfficiency: panel efficiency by UV index. */
  function SolarEfficiency(uvIndex: Option<real>): (eff: real)
    ensures Falsy(uvIndex) ==> eff == 0.0
    ensures !Falsy(uvIndex) ==> eff in {0.21, 0.19, 0.17, 0.15}
  {
    if Falsy(uvIndex) then 0.0
    else if uvIndex.value > 10.0 then 0.21
    else if uvIndex.value > 7.0 then 0.19
    else if uvIndex.value > 4.0 then 0.17
    else 0.15
  }

  /** dynamicWindEfficiency: turbine efficiency by wind speed. */
  function WindEfficiency(windSpeed: Option<real>): (eff: real)
    ensures Falsy(windSpeed) ==> eff == 0.0
    ensures !Falsy(windSpeed) ==> eff in {0.45, 0.4, 0.35, 0.2}
  {
    if Falsy(windSpeed) then 0.0
    else if windSpeed.value > 10.0 then 0.45
    else if windSpeed.value > 6.0 then 0.4
    else if windSpeed.value > 3.0 then 0.35
    else 0.2
  }

  /** For positive readings both efficiencies are non-decreasing step functions. */
  lemma EfficienciesMonotone(r1: real, r2: real)
    requires 0.0 < r1 <= r2
    ensures SolarEfficiency(Some(r1)) <= SolarEfficiency(Some(r2))
    ensures WindEfficiency(Some(r1)) <= WindEfficiency(Some(r2))
  {
  }

  /** calculateSolarKWh: UV index × area × efficiency × 30 days. */
  function SolarKWh(uvIndex: Option<real>, area: real): (kWh: real)
    ensures Falsy(uvIndex) ==> kWh == 0.0
    ensures (uvIndex.Some? ==> uvIndex.value >= 0.0) && area >= 0.0 ==> kWh >= 0.0
  {
    if Falsy(uvIndex) then 0.0
    else
      NonNegativeProduct(uvIndex.value, area, SolarEfficiency(uvIndex) * 30.0);
      uvIndex.value * area * SolarEfficiency(uvIndex) * 30.0
  }

  lemma NonNegativeProduct(a: real, b: real, c: real)
    requires c >= 0.0
    ensures a >= 0.0 && b >= 0.0 ==> a * b * c >= 0.0
  {
    if a >= 0.0 && b >= 0.0 {
      MulMonotone(a, 0.0, b);
      MulMonotone(c, 0.0, a * b);
    }
  }

  /** The solar estimate is proportional to the panel area. */
  lemma SolarKWhScalesWithArea(uvIndex: Option<real>, area: real, k: real)
    ensures SolarKWh(uvIndex, k * area) == k * SolarKWh(uvIndex, area)
  {
    if !Falsy(uvIndex) {
      var u, e := uvIndex.value, SolarEfficiency(uvIndex);
      assert u * (k * area) * e * 30.0 == k * (u * area * e * 30.0);
    }
  }

  /** Seconds in the 30-day month of the estimates. */
  const SECONDS_PER_MONTH: real := 3600.0 * 24.0 * 30.0

  /**
   * calculateWindKWh: ½ ρ π r² v³ × efficiency over a 30-day month, in kWh
   * (air density ρ = 1.225 kg/m³).
   */
  function WindKWh(windSpeed: Option<real>, radius: real, m: Transcendentals): (kWh: real)
    requires m.Sound()
    ensures Falsy(windSpeed) ==> kWh == 0.0
    ensures windSpeed.Some? && windSpeed.value >= 0.0 ==> kWh >= 0.0
  {
    if Falsy(windSpeed) then 0.0
    else
      var v := windSpeed.value;
      var sweptPower := 0.5 * 1.225 * m.pi * (radius * radius) * (v * v * v);
      var e := WindEfficiency(windSpeed);
      WindPowerNonNegative(m.pi, radius, v, e);
      sweptPower * e * SECONDS_PER_MONTH / 1000000.0
  }

  lemma WindPowerNonNegative(pi: real, radius: real, v: real, e: real)
    requires pi > 0.0 && e >= 0.0
    ensures v >= 0.0 ==> 0.5 * 1.225 * pi * (radius * radius) * (v * v * v) * e * SECONDS_PER_MONTH / 1000000.0 >= 0.0
  {
    if v >= 0.0 {
      var r2 := radius * radius;
      var v3 := v * v * v;
      MulMonotone(v, 0.0, v);
      MulMonotone(v * v, 0.0, v);
      NonNegativeProduct(0.5 * 1.225 * pi, r2, v3);
      NonNegativeProduct(0.5 * 1.225 * pi * r2 * v3, e, SECONDS_PER_MONTH / 1000000.0);
      assert 0.5 * 1.225 * pi * r2 * v3 * e * SECONDS_PER_MONTH / 1000000.0
        == 0.5 * 1.225 * pi * r2 * v3 * e * (SECONDS_PER_MONTH / 1000000.0);
    }
  }

  /** Doubling the rotor radius quadruples the wind estimate. */
  lemma WindKWhScalesWithRadiusSquared(windSpeed: Option<real>, radius: real, m: Transcendentals)
    requires m.Sound()
    ensures WindKWh(windSpeed, 2.0 * radius, m) == 4.0 * WindKWh(windSpeed, radius, m)
  {
    if !Falsy(windSpeed) {
      var v := windSpeed.value;
      var c := 0.5 * 1.225 * m.pi;
      var rest := (v * v * v) * WindEfficiency(windSpeed) * SECONDS_PER_MONTH / 1000000.0;
      assert (2.0 * radius) * (2.0 * radius) == 4.0 * (radius * radius);
      assert c * (4.0 * (radius * radius)) * (v * v * v) * WindEfficiency(windSpeed) * SECONDS_PER_MONTH / 1000000.0
        == 4.0 * (c * (radius * radius) * (v * v * v) * WindEfficiency(windSpeed) * SECONDS_PER_MONTH / 1000000.0);
    }
  }

  /** The household's inputs; defaults 150 kWh, 0.75 per kWh, 20000 and 25000 installed, 10 m², 2 m. */
  datatype Inputs = Inputs(
    consumption: real, costKWh: real, costSolar: real, costWind: real, area: real, radius: real)

  const DEFAULT_INPUTS: Inputs := Inputs(150.0, 0.75, 20000.0, 25000.0, 10.0, 2.0)

  /** The money a month's production saves. */
  function Economy(kWh: real, costKWh: real): (saved: real)
    ensures kWh >= 0.0 && costKWh >= 0.0 ==> saved >= 0.0
    ensures kWh == 0.0 || costKWh == 0.0 ==> saved == 0.0
  {
    NonNegativeProduct(kWh, costKWh, 1.0);
    kWh * costKWh
  }

  /** Months to recover the installation; none without production. */
  function Payback(installationCost: real, kWh: real, costKWh: real): (months: Option<real>)
    requires kWh > 0.0 ==> costKWh != 0.0
    ensures months.None? <==> kWh <= 0.0
    ensures months.Some? ==> months.value * Economy(kWh, costKWh) == installationCost
  {
    if kWh > 0.0 then
      var saved := Economy(kWh, costKWh);
      NonZeroProduct(kWh, costKWh);
      Some(installationCost / saved)
    else None
  }

  lemma NonZeroProduct(a: real, b: real)
    requires a != 0.0 && b != 0.0
    ensures a * b != 0.0
  {
  }

  /** The share of consumption a production covers, in percent, capped at 100. */
  function Coverage(kWh: real, consumption: real): (percent: real)
    requires consumption != 0.0
    ensures percent <= 100.0
    ensures consumption > 0.0 && kWh >= 0.0 ==> percent >= 0.0
    ensures consumption > 0.0 ==> (percent == 100.0 <==> kWh >= consumption)
  {
    CoverageRatio(kWh, consumption);
    Min(100.0, kWh / consumption * 100.0)
  }

  lemma CoverageRatio(kWh: real, consumption: real)
    requires consumption != 0.0
    ensures consumption > 0.0 && kWh >= 0.0 ==> kWh / consumption >= 0.0
    ensures consumption > 0.0 ==> (kWh / consumption >= 1.0 <==> kWh >= consumption)
  {
    if consumption > 0.0 {
      DivSign(kWh, consumption);
      var q := kWh / consumption;
      if q >= 1.0 { MulMonotone(consumption, 1.0, q); }
      if kWh >= consumption && q < 1.0 { MulStrict(consumption, q, 1.0); }
    }
  }

  /** Everything the comparison panel shows. */
  datatype Comparison = Comparison(
    solarKWh: real, windKWh: real,
    economySolar: real, economyWind: real,
    monthlyCost: real,
    paybackSolar: Option<real>, paybackWind: Option<real>,
    coverageSolar: real, coverageWind: real)

  function Compare(inputs: Inputs, uvIndex: Option<real>, windSpeed: Option<real>, m: Transcendentals): (c: Comparison)
    requires m.Sound()
    requires inputs.costKWh != 0.0 && inputs.consumption != 0.0
    ensures c.solarKWh == SolarKWh(uvIndex, inputs.area) && c.windKWh == WindKWh(windSpeed, inputs.radius, m)
    ensures c.economySolar == Economy(c.solarKWh, inputs.costKWh) && c.economyWind == Economy(c.windKWh, inputs.costKWh)
    ensures c.monthlyCost == Economy(inputs.consumption, inputs.costKWh)
    ensures c.paybackSolar == Payback(inputs.costSolar, c.solarKWh, inputs.costKWh)
    ensures c.paybackWind == Payback(inputs.costWind, c.windKWh, inputs.costKWh)
    ensures c.coverageSolar == Coverage(c.solarKWh, inputs.consumption)
    ensures c.coverageWind == Coverage(c.windKWh, inputs.consumption)
    ensures c.paybackSolar.None? <==> c.solarKWh <= 0.0
    ensures c.paybackWind.None? <==> c.windKWh <= 0.0
    ensures c.paybackSolar.Some? ==> c.paybackSolar.value * c.economySolar == inputs.costSolar
    ensures c.paybackWind.Some? ==> c.paybackWind.value * c.economyWind == inputs.costWind
    ensures c.coverageSolar <= 100.0 && c.coverageWind <= 100.0
    ensures inputs.consumption > 0.0 ==> (c.coverageSolar == 100.0 <==> c.solarKWh >= inputs.consumption)
    ensures inputs.consumption > 0.0 ==> (c.coverageWind == 100.0 <==> c.windKWh >= inputs.consumption)
  {
    var solarKWh := SolarKWh(uvIndex, inputs.area);
    var windKWh := WindKWh(windSpeed, inputs.radius, m);
    Comparison(
      solarKWh, windKWh,
      Economy(solarKWh, inputs.costKWh), Economy(windKWh, inputs.costKWh),
      Economy(inputs.consumption, inputs.costKWh),
      Payback(inputs.costSolar, solarKWh, inputs.costKWh),
      Payback(inputs.costWind, windKWh, inputs.costKWh),
      Coverage(solarKWh, inputs.consumption),
      Coverage(windKWh, inputs.consumption))
  }

  /**
   * With the default inputs: a bill of 112.5 a month, nothing produced
   * before a reading arrives, and at UV index 5 a panel producing 255 kWh,
   * saving 191.25 a month and covering the whole consumption.
   */
  lemma DefaultComparison(m: Transcendentals)
    requires m.Sound()
    ensures Compare(DEFAULT_INPUTS, None, None, m).monthlyCost == 112.5
    ensures var c := Compare(DEFAULT_INPUTS, None, None, m);
      c.solarKWh == 0.0 && c.paybackSolar == None && c.coverageSolar == 0.0 && c.paybackWind == None
    ensures var c := Compare(DEFAULT_INPUTS, Some(5.0), None, m);
      c.solarKWh == 255.0 && c.economySolar == 191.25 && c.coverageSolar == 100.0
  {
    assert SolarEfficiency(Some(5.0)) == 0.17;
  }
}
