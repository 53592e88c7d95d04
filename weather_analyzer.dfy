/**
 * The weather-data location analyzer (src/components/location-analyzer.tsx):
 * it scores a location for sun from clear-sky and cloudy-sky irradiance
 * weighted by the current cloud cover, and for wind from the wind speed,
 * the gusts and the air pressure; it recommends a technology with the same
 * ±15 rule as the heuristic analyzer and names wind directions on a
 * 16-point compass. The weather and irradiance readings are fixed
 * simulated values for every location.
 */
module WeatherAnalyzer {
  import opened Wrappers
  import opened JsMath
  import opened Recommendation
  import Search
  import Text

  // ---- readings -----------------------------------------------------------

  /** The fields of a weather reading the scores use. */
  datatype Weather = Weather(cloudsAll: real, windSpeed: real, windDeg: real, windGust: Option<real>, pressure: real)

  /** The daily global horizontal irradiance under clear and under cloudy sky, in Wh/m². */
  datatype Irradiance = Irradiance(clearSkyGhi: real, cloudySkyGhi: real)

  /** The simulated weather reading every location gets. */
  const SIMULATED_WEATHER: Weather := Weather(52.0, 3.25, 206.0, Some(3.8), 1012.0)

  /** The simulated irradiance reading every location gets. */
  const SIMULATED_IRRADIANCE: Irradiance := Irradiance(3341.99, 1321.03)

  // ---- solar --------------------------------------------------------------

  /** Linear interpolation between the clear-sky and the cloudy-sky GHI by cloud cover. */
  function ActualGhi(irr: Irradiance, cloudsAll: real): (ghi: real)
    ensures cloudsAll == 0.0 ==> ghi == irr.clearSkyGhi
    ensures cloudsAll == 100.0 ==> ghi == irr.cloudySkyGhi
  {
    var cloudCoverFraction := cloudsAll / 100.0;
    irr.clearSkyGhi * (1.0 - cloudCoverFraction) + irr.cloudySkyGhi * cloudCoverFraction
  }

  /** For a cloud cover between 0 and 100% the GHI lies between the two readings. */
  lemma ActualGhiBetween(irr: Irradiance, cloudsAll: real)
    requires 0.0 <= cloudsAll <= 100.0
    ensures Min(irr.clearSkyGhi, irr.cloudySkyGhi) <= ActualGhi(irr, cloudsAll) <= Max(irr.clearSkyGhi, irr.cloudySkyGhi)
  {
    Interpolation(irr.clearSkyGhi, irr.cloudySkyGhi, cloudsAll / 100.0);
  }

  lemma Interpolation(a: real, b: real, f: real)
    requires 0.0 <= f <= 1.0
    ensures Min(a, b) <= a * (1.0 - f) + b * f <= Max(a, b)
  {
    assert a * (1.0 - f) + b * f == a + f * (b - a);
    if a <= b {
      MulMonotone(f, 0.0, b - a);
      MulMonotone(b - a, f, 1.0);
    } else {
      MulMonotone(f, b - a, 0.0);
      MulMonotone(a - b, f, 1.0);
    }
  }

  /** The solar score: the GHI as a percentage of 7000 Wh/m², rounded and capped at 100. */
  function SolarScore(ghi: real): (score: int)
    ensures score <= 100
    ensures ghi >= 0.0 ==> score >= 0
    ensures score == 100 <==> ghi >= 6965.0
  {
    var rounded := Round(ghi / 7000.0 * 100.0);
    if 100 < rounded then 100 else rounded
  }

  /** The phrases of the solar description: one for irradiance, then one for clouds. */
  datatype SolarPhrase =
    | ExcellentIrradiance | VeryGoodIrradiance | ModerateIrradiance | LimitedIrradiance
    | HeavyCloud | PartialCloud | ClearSky

  predicate IsIrradiancePhrase(p: SolarPhrase) {
    p in {ExcellentIrradiance, VeryGoodIrradiance, ModerateIrradiance, LimitedIrradiance}
  }

  function IrradiancePhrase(ghi: real): (p: SolarPhrase)
    ensures IsIrradiancePhrase(p)
    ensures p == LimitedIrradiance <==> ghi <= 1000.0
  {
    if ghi > 3000.0 then ExcellentIrradiance
    else if ghi > 2000.0 then VeryGoodIrradiance
    else if ghi > 1000.0 then ModerateIrradiance
    else LimitedIrradiance
  }

  function CloudPhrase(cloudsAll: real): (p: SolarPhrase)
    ensures p in {HeavyCloud, PartialCloud, ClearSky}
    ensures p == ClearSky <==> cloudsAll <= 30.0
  {
    if cloudsAll > 70.0 then HeavyCloud
    else if cloudsAll > 30.0 then PartialCloud
    else ClearSky
  }

  /** More irradiance never gets a weaker phrase. */
  lemma IrradiancePhraseMonotone(g1: real, g2: real)
    requires g1 <= g2
    ensures PhraseRank(IrradiancePhrase(g1)) <= PhraseRank(IrradiancePhrase(g2))
  {
  }

  function PhraseRank(p: SolarPhrase): nat {
    match p
    case LimitedIrradiance => 0
    case ModerateIrradiance => 1
    case VeryGoodIrradiance => 2
    case ExcellentIrradiance => 3
    case _ => 0
  }

  // ---- wind ---------------------------------------------------------------

  /** The wind speed factor: 20 per m/s below 3, then 60 + 10 per m/s, then 80 + 4 per m/s, 100 from 12. */
  function WindSpeedFactor(speed: real): (f: real)
    ensures speed >= 0.0 ==> 0.0 <= f <= 100.0
  {
    if speed < 3.0 then speed * 20.0
    else if speed < 7.0 then 60.0 + (speed - 3.0) * 10.0
    else if speed < 12.0 then 80.0 + (speed - 7.0) * 4.0
    else 100.0
  }

  /**
   * The factor is continuous at 3 and 12 m/s but falls by more than 14
   * points when the speed reaches 7 m/s, so it is not monotone.
   */
  lemma WindSpeedFactorShape(s: real)
    ensures 2.0 <= s <= 4.0 ==> Abs(WindSpeedFactor(s) - WindSpeedFactor(3.0)) <= 20.0 * Abs(s - 3.0)
    ensures 11.0 <= s <= 13.0 ==> Abs(WindSpeedFactor(s) - WindSpeedFactor(12.0)) <= 4.0 * Abs(s - 12.0)
    ensures WindSpeedFactor(7.0) == 80.0
    ensures 6.5 <= s < 7.0 ==> WindSpeedFactor(s) > WindSpeedFactor(7.0) + 14.0
  {
  }

  /** `gust` is truthy: present and not zero. */
  predicate GustGiven(gust: Option<real>) {
    gust.Some? && gust.value != 0.0
  }

  /**
   * The gust factor: 100 minus the gust excess as a percentage of the
   * speed, capped at 100; 80 without a gust. With no wind and a gust the
   * excess is infinite, so the factor is 0.
   */
  function GustFactor(speed: real, gust: Option<real>): (f: real)
    requires speed >= 0.0 && (gust.Some? ==> gust.value >= 0.0)
    ensures !GustGiven(gust) ==> f == 80.0
    ensures GustGiven(gust) && gust.value >= speed ==> 0.0 <= f <= 100.0
    ensures GustGiven(gust) && gust.value < speed ==> f > 100.0
  {
    if !GustGiven(gust) then 80.0
    else if speed == 0.0 then 0.0
    else 100.0 - Min(100.0, GustExcess(gust.value, speed))
  }

  /** The gust's excess over the speed, as a percentage of the speed. */
  function GustExcess(gust: real, speed: real): (e: real)
    requires speed > 0.0
    ensures e >= 0.0 <==> gust >= speed
  {
    DivSign(gust - speed, speed);
    (gust - speed) / speed * 100.0
  }

  /** The pressure factor: lower pressure stands for higher ground. */
  function PressureFactor(pressure: real): (f: real)
    ensures f >= 0.0
    ensures f == 0.0 <==> pressure >= 1100.0
    ensures pressure < 900.0 <==> f > 100.0
  {
    Max(0.0, 100.0 - (pressure - 900.0) / 2.0)
  }

  /** The wind score: speed 70%, gusts 20%, pressure 10%, rounded. */
  function WindScore(speedFactor: real, gustFactor: real, pressureFactor: real): int {
    Round(speedFactor * 0.7 + gustFactor * 0.2 + pressureFactor * 0.1)
  }

  lemma WindScoreRange(s: real, g: real, p: real)
    requires 0.0 <= s <= 100.0 && 0.0 <= g <= 100.0 && 0.0 <= p <= 100.0
    ensures 0 <= WindScore(s, g, p) <= 100
  {
    RoundBetween(s * 0.7 + g * 0.2 + p * 0.1, 0, 100);
  }

  /** The phrases of the wind description: one for the speed, then possibly the gust warning. */
  datatype WindPhrase = LowSpeed | ModerateSpeed | GoodSpeed | VeryHighSpeed | GustyConditions

  function SpeedPhrase(speed: real): (p: WindPhrase)
    ensures p != GustyConditions
  {
    if speed < 3.0 then LowSpeed
    else if speed < 7.0 then ModerateSpeed
    else if speed < 12.0 then GoodSpeed
    else VeryHighSpeed
  }

  /** The speed phrase names the same band as the speed factor's formula. */
  lemma SpeedPhraseMatchesFactor(speed: real)
    requires speed >= 0.0
    ensures SpeedPhrase(speed) == LowSpeed <==> WindSpeedFactor(speed) < 60.0
    ensures SpeedPhrase(speed) == VeryHighSpeed ==> WindSpeedFactor(speed) == 100.0
  {
  }

  // ---- the analysis -------------------------------------------------------

  /** A location to analyze, and a sample of the search suggestions. */
  datatype Place = Place(name: string, lat: real, lng: real)

  function NameOf(p: Place): string { p.name }

  /** The record calculateEnergyPotential stores. */
  datatype WeatherAnalysis = WeatherAnalysis(
    place: Place,
    weather: Weather,
    irradiance: Irradiance,
    solarScore: int,
    windScore: int,
    solarDescription: seq<SolarPhrase>,
    windDescription: seq<WindPhrase>,
    recommendation: Choice)

  /** The solar description: the irradiance phrase, then the cloud phrase. */
  function SolarDescription(ghi: real, cloudsAll: real): (d: seq<SolarPhrase>)
    ensures |d| == 2 && IsIrradiancePhrase(d[0]) && !IsIrradiancePhrase(d[1])
  {
    [IrradiancePhrase(ghi), CloudPhrase(cloudsAll)]
  }

  /** The wind description: the speed phrase, then the gust warning when gusts exceed 1.5 times the speed. */
  function WindDescription(speed: real, gust: Option<real>): (d: seq<WindPhrase>)
    ensures 1 <= |d| <= 2 && d[0] == SpeedPhrase(speed)
    ensures GustyConditions in d <==> GustGiven(gust) && gust.value > speed * 1.5
  {
    [SpeedPhrase(speed)] + if GustGiven(gust) && gust.value > speed * 1.5 then [GustyConditions] else []
  }

  /** What calculateEnergyPotential computes from a location and its readings. */
  function EnergyPotential(place: Place, w: Weather, irr: Irradiance): (a: WeatherAnalysis)
    requires w.windSpeed >= 0.0 && (w.windGust.Some? ==> w.windGust.value >= 0.0)
    ensures a.place == place && a.weather == w && a.irradiance == irr
    ensures a.solarScore <= 100
    ensures a.recommendation == Recommend(a.solarScore as real, a.windScore as real)
  {
    var ghi := ActualGhi(irr, w.cloudsAll);
    var solarScore := SolarScore(ghi);
    var windScore := WindScore(WindSpeedFactor(w.windSpeed), GustFactor(w.windSpeed, w.windGust), PressureFactor(w.pressure));
    WeatherAnalysis(place, w, irr, solarScore, windScore,
      SolarDescription(ghi, w.cloudsAll),
      WindDescription(w.windSpeed, w.windGust),
      Recommend(solarScore as real, windScore as real))
  }

  /** With cloud cover a percentage and non-negative readings the solar score is a percentage. */
  lemma EnergyPotentialSolarRange(place: Place, w: Weather, irr: Irradiance)
    requires w.windSpeed >= 0.0 && (w.windGust.Some? ==> w.windGust.value >= 0.0)
    requires 0.0 <= w.cloudsAll <= 100.0 && irr.clearSkyGhi >= 0.0 && irr.cloudySkyGhi >= 0.0
    ensures 0 <= EnergyPotential(place, w, irr).solarScore <= 100
  {
    ActualGhiBetween(irr, w.cloudsAll);
  }

  /** With gusts at least as strong as the mean wind and pressure of at least 900 hPa, the wind score is a percentage. */
  lemma EnergyPotentialWindRange(place: Place, w: Weather, irr: Irradiance)
    requires w.windSpeed >= 0.0 && (w.windGust.Some? ==> w.windSpeed <= w.windGust.value)
    requires 900.0 <= w.pressure
    ensures 0 <= EnergyPotential(place, w, irr).windScore <= 100
  {
    WindScoreRange(WindSpeedFactor(w.windSpeed), GustFactor(w.windSpeed, w.windGust), PressureFactor(w.pressure));
  }

  /**
   * With the fixed simulated readings every location scores 33 for sun
   * and 65 for wind, wind is recommended, and no gust warning is added.
   */
  lemma SimulatedOutcome(place: Place)
    ensures var a := EnergyPotential(place, SIMULATED_WEATHER, SIMULATED_IRRADIANCE);
      && a.solarScore == 33 && a.windScore == 65
      && a.recommendation == Wind
      && a.solarDescription == [VeryGoodIrradiance, PartialCloud]
      && a.windDescription == [ModerateSpeed]
  {
    var w, irr := SIMULATED_WEATHER, SIMULATED_IRRADIANCE;
    assert ActualGhi(irr, w.cloudsAll) == 2291.0908;
    assert SolarScore(2291.0908) == 33;
    assert !(3.8 > 3.25 * 1.5);
    assert WindSpeedFactor(3.25) == 62.5;
    assert PressureFactor(1012.0) == 44.0;
    var g := GustFactor(3.25, Some(3.8));
    assert g == 100.0 - 0.55 / 3.25 * 100.0;
    assert WindScore(62.5, g, 44.0) == 65;
  }

  // ---- compass ------------------------------------------------------------

  const DIRECTIONS: seq<string> := [
    "N", "NNE", "NE", "ENE", "E", "ESE", "SE", "SSE",
    "S", "SSW", "SW", "WSW", "W", "WNW", "NW", "NNW"
  ]

  /** `Math.round(degrees / 22.5) % 16`, JavaScript remainder. */
  function CompassIndex(degrees: real): (i: int)
    ensures -15 <= i <= 15
    ensures degrees >= -11.25 ==> i >= 0
  {
    TruncRemInt(Round(degrees / 22.5), 16)
  }

  /**
   * getWindDirection. A negative index reads outside the array and gives
   * `undefined`, modelled as None.
   */
  function WindDirection(degrees: real): (name: Option<string>)
    ensures degrees >= -11.25 ==> name.Some?
    ensures name.Some? ==> name.value in DIRECTIONS
  {
    var i := CompassIndex(degrees);
    if i >= 0 then Some(DIRECTIONS[i]) else None
  }

  /** Each of the sixteen points is named at its own bearing. */
  lemma WindDirectionAtPoints(k: nat)
    requires k < 16
    ensures WindDirection(k as real * 22.5) == Some(DIRECTIONS[k])
  {
    assert k as real * 22.5 / 22.5 == k as real;
    RoundOfInteger(k);
  }

  lemma WindDirectionCardinals()
    ensures WindDirection(0.0) == Some("N") && WindDirection(360.0) == Some("N")
    ensures WindDirection(90.0) == Some("E")
    ensures WindDirection(180.0) == Some("S")
    ensures WindDirection(270.0) == Some("W")
  {
    WindDirectionAtPoints(0);
    assert 0 as real * 22.5 == 0.0;
    WindDirectionAtPoints(4);
    assert 4 as real * 22.5 == 90.0;
    WindDirectionAtPoints(8);
    assert 8 as real * 22.5 == 180.0;
    WindDirectionAtPoints(12);
    assert 12 as real * 22.5 == 270.0;
    WindDirectionPeriodic(0.0);
    assert 0.0 + 360.0 == 360.0;
  }

  /** A full turn names the same direction. */
  lemma WindDirectionPeriodic(degrees: real)
    requires degrees >= -11.25
    ensures WindDirection(degrees + 360.0) == WindDirection(degrees)
  {
    var x := degrees / 22.5;
    assert (degrees + 360.0) / 22.5 == x + 16.0;
    RoundShift(x, 16);
    var r := Round(x);
    assert r >= 0;
    assert (r + 16) % 16 == r % 16;
  }

  lemma RoundShift(x: real, n: int)
    ensures Round(x + n as real) == Round(x) + n
  {
  }

  /**
   * Below -11.25° the JavaScript remainder is negative and reads outside
   * the array, except where it is a negative zero.
   */
  lemma WindDirectionNegative()
    ensures WindDirection(-22.5) == None
    ensures WindDirection(-360.0) == Some("N")
  {
    assert -22.5 / 22.5 == -1.0;
    RoundOfInteger(-1);
    assert -360.0 / 22.5 == -16.0;
    RoundOfInteger(-16);
  }

  // ---- the component ------------------------------------------------------

  /** SAMPLE_LOCATIONS of the weather analyzer's search box. */
  const SAMPLE_LOCATIONS: seq<Place> := [
    Place("Rome, Italy", 41.9028, 12.4964),
    Place("Paris, France", 48.8566, 2.3522),
    Place("London, UK", 51.5074, -0.1278),
    Place("New York, USA", 40.7128, -74.006),
    Place("Tokyo, Japan", 35.6762, 139.6503),
    Place("Sydney, Australia", -33.8688, 151.2093),
    Place("Rio de Janeiro, Brazil", -22.9068, -43.1729),
    Place("Cape Town, South Africa", -33.9249, 18.4241),
    Place("Moscow, Russia", 55.7558, 37.6173),
    Place("Dubai, UAE", 25.2048, 55.2708)
  ]

  /** The first result of a geocoder search. */
  datatype SearchResult = SearchResult(displayName: string, lat: real, lon: real)

  /** The solar half of calculateEnergyPotential: the score, then the irradiance and cloud phrases appended in turn. */
  method AssessSolar(w: Weather, irr: Irradiance) returns (solarScore: int, solarDescription: seq<SolarPhrase>)
    ensures solarScore == SolarScore(ActualGhi(irr, w.cloudsAll))
    ensures solarDescription == SolarDescription(ActualGhi(irr, w.cloudsAll), w.cloudsAll)
  {
    var cloudCoverFraction := w.cloudsAll / 100.0;
    var actualGhi := irr.clearSkyGhi * (1.0 - cloudCoverFraction) + irr.cloudySkyGhi * cloudCoverFraction;
    assert actualGhi == ActualGhi(irr, w.cloudsAll);
    solarScore := Round(actualGhi / 7000.0 * 100.0);
    solarScore := if 100 < solarScore then 100 else solarScore;
    assert solarScore == SolarScore(actualGhi);

    if actualGhi > 3000.0 {
      solarDescription := [ExcellentIrradiance];
    } else if actualGhi > 2000.0 {
      solarDescription := [VeryGoodIrradiance];
    } else if actualGhi > 1000.0 {
      solarDescription := [ModerateIrradiance];
    } else {
      solarDescription := [LimitedIrradiance];
    }
    if w.cloudsAll > 70.0 {
      solarDescription := solarDescription + [HeavyCloud];
    } else if w.cloudsAll > 30.0 {
      solarDescription := solarDescription + [PartialCloud];
    } else {
      solarDescription := solarDescription + [ClearSky];
    }
    assert solarDescription == SolarDescription(actualGhi, w.cloudsAll);
  }

  /** The wind half of calculateEnergyPotential: the three factors combined, then the speed and gust phrases. */
  method AssessWind(w: Weather) returns (windScore: int, windDescription: seq<WindPhrase>)
    requires w.windSpeed >= 0.0 && (w.windGust.Some? ==> w.windGust.value >= 0.0)
    ensures windScore == WindScore(WindSpeedFactor(w.windSpeed), GustFactor(w.windSpeed, w.windGust), PressureFactor(w.pressure))
    ensures windDescription == WindDescription(w.windSpeed, w.windGust)
  {
    var windSpeedFactor := 0.0;
    if w.windSpeed < 3.0 {
      windSpeedFactor := w.windSpeed * 20.0;
    } else if w.windSpeed < 7.0 {
      windSpeedFactor := 60.0 + (w.windSpeed - 3.0) * 10.0;
    } else if w.windSpeed < 12.0 {
      windSpeedFactor := 80.0 + (w.windSpeed - 7.0) * 4.0;
    } else {
      windSpeedFactor := 100.0;
    }
    var gustFactor := GustFactor(w.windSpeed, w.windGust);
    var pressureFactor := Max(0.0, 100.0 - (w.pressure - 900.0) / 2.0);
    assert windSpeedFactor == WindSpeedFactor(w.windSpeed);
    assert pressureFactor == PressureFactor(w.pressure);
    windScore := Round(windSpeedFactor * 0.7 + gustFactor * 0.2 + pressureFactor * 0.1);

    if w.windSpeed < 3.0 {
      windDescription := [LowSpeed];
    } else if w.windSpeed < 7.0 {
      windDescription := [ModerateSpeed];
    } else if w.windSpeed < 12.0 {
      windDescription := [GoodSpeed];
    } else {
      windDescription := [VeryHighSpeed];
    }
    if GustGiven(w.windGust) && w.windGust.value > w.windSpeed * 1.5 {
      windDescription := windDescription + [GustyConditions];
    }
    assert windDescription == WindDescription(w.windSpeed, w.windGust);
  }

  class LocationAnalyzer {
    var searchTerm: string
    var selectedLocation: Option<WeatherAnalysis>
    var suggestions: seq<Place>
    var showSuggestions: bool
    var mapCenter: Option<(real, real)>

    constructor ()
      ensures searchTerm == "" && selectedLocation == None && suggestions == []
      ensures !showSuggestions && mapCenter == None
    {
      searchTerm := "";
      selectedLocation := None;
      suggestions := [];
      showSuggestions := false;
      mapCenter := None;
    }

    /** handleSearchChange */
    method HandleSearchChange(value: string)
      modifies this
      ensures searchTerm == value
      ensures suggestions == Search.Suggestions(SAMPLE_LOCATIONS, NameOf, value)
      ensures showSuggestions <==> |suggestions| > 0
      ensures selectedLocation == old(selectedLocation) && mapCenter == old(mapCenter)
    {
      searchTerm := value;
      if Text.Utf16Length(value) > 2 {
        var filtered := Search.Filter(SAMPLE_LOCATIONS, NameOf, value);
        suggestions := filtered;
        showSuggestions := |filtered| > 0;
      } else {
        suggestions := [];
        showSuggestions := false;
      }
    }

    /**
     * calculateEnergyPotential: the factors are computed step by step and
     * the descriptions built by appending, then the analysis is stored.
     */
    method CalculateEnergyPotential(place: Place, w: Weather, irr: Irradiance)
      requires w.windSpeed >= 0.0 && (w.windGust.Some? ==> w.windGust.value >= 0.0)
      modifies this
      ensures selectedLocation == Some(EnergyPotential(place, w, irr))
      ensures searchTerm == old(searchTerm) && suggestions == old(suggestions)
      ensures showSuggestions == old(showSuggestions) && mapCenter == old(mapCenter)
    {
      var solarScore, solarDescription := AssessSolar(w, irr);
      var windScore, windDescription := AssessWind(w);

      var recommendation := Both;
      if solarScore as real > windScore as real + 15.0 {
        recommendation := Solar;
      } else if windScore as real > solarScore as real + 15.0 {
        recommendation := Wind;
      }

      selectedLocation := Some(WeatherAnalysis(place, w, irr, solarScore, windScore,
        solarDescription, windDescription, recommendation));
    }

    /** fetchWeatherAndIrradianceData: the simulated readings for the place, then the analysis. */
    method FetchWeatherAndIrradianceData(place: Place)
      modifies this
      ensures selectedLocation == Some(EnergyPotential(place, SIMULATED_WEATHER, SIMULATED_IRRADIANCE))
      ensures searchTerm == old(searchTerm) && suggestions == old(suggestions)
      ensures showSuggestions == old(showSuggestions) && mapCenter == old(mapCenter)
    {
      CalculateEnergyPotential(place, SIMULATED_WEATHER, SIMULATED_IRRADIANCE);
    }

    /** handleLocationSelect */
    method HandleLocationSelect(place: Place)
      modifies this
      ensures mapCenter == Some((place.lat, place.lng))
      ensures selectedLocation == Some(EnergyPotential(place, SIMULATED_WEATHER, SIMULATED_IRRADIANCE))
      ensures searchTerm == place.name && !showSuggestions
      ensures suggestions == old(suggestions)
    {
      mapCenter := Some((place.lat, place.lng));
      FetchWeatherAndIrradianceData(place);
      searchTerm := place.name;
      showSuggestions := false;
    }

    /**
     * handleSearchSubmit, given the geocoder's answer (a failed request
     * reads as an empty answer). Unlike a selection, a search leaves the
     * search box and the suggestion list as they are.
     */
    method HandleSearchSubmit(results: seq<SearchResult>)
      modifies this
      ensures !Search.SubmitAccepted(old(searchTerm)) || results == [] ==>
        selectedLocation == old(selectedLocation) && mapCenter == old(mapCenter)
      ensures Search.SubmitAccepted(old(searchTerm)) && results != [] ==>
        && mapCenter == Some((results[0].lat, results[0].lon))
        && selectedLocation == Some(EnergyPotential(Place(results[0].displayName, results[0].lat, results[0].lon),
             SIMULATED_WEATHER, SIMULATED_IRRADIANCE))
      ensures searchTerm == old(searchTerm) && suggestions == old(suggestions)
      ensures showSuggestions == old(showSuggestions)
    {
      if Text.Utf16Length(searchTerm) < 3 {
        return;
      }
      if |results| > 0 {
        var result := results[0];
        mapCenter := Some((result.lat, result.lon));
        FetchWeatherAndIrradianceData(Place(result.displayName, result.lat, result.lon));
      }
    }
  }
}
