/**
 * The heuristic location analyzer (components/location-analyzer.tsx): it
 * scores a location for wind from its terrain's base potential and four
 * geographic factors, for sun from its terrain and latitude, recommends a
 * technology, and keeps the search box, the suggestion list, the map
 * centre and the selected analysis as component state.
 */
module HeuristicAnalyzer {
  import opened Wrappers
  import opened JsMath
  import opened Text
  import opened TerrainCatalog
  import opened GeoFactors
  import opened Recommendation
  import Search

  /** A location handed to handleLocationSelect. */
  datatype Location = Location(name: string, lat: real, lng: real, key: string)

  function NameOf(l: Location): string { l.name }

  /** SAMPLE_LOCATIONS: one sample per terrain. */
  const SAMPLE_LOCATIONS: seq<Location> := [
    Location("Sahara Desert, Algeria", 27.1258, 2.4519, "desert"),
    Location("San Francisco Bay, USA", 37.8199, -122.4783, "coastal"),
    Location("Swiss Alps, Switzerland", 46.8182, 8.2275, "mountains"),
    Location("Great Plains, USA", 41.5, -99.8, "plains"),
    Location("Amazon Rainforest, Brazil", -3.4653, -62.2159, "forest"),
    Location("Manhattan, New York, USA", 40.7831, -73.9712, "urban"),
    Location("Palo Alto, California, USA", 37.4419, -122.143, "suburban"),
    Location("Bali, Indonesia", -8.3405, 115.092, "tropical"),
    Location("Svalbard, Norway", 78.6569, 16.35, "arctic"),
    Location("Tuscany, Italy", 43.7711, 11.2486, "temperate")
  ]

  /** Every sample names a terrain of the tables, and each terrain has its sample. */
  lemma SamplesCoverTerrains(t: Terrain)
    ensures forall i :: 0 <= i < |SAMPLE_LOCATIONS| ==> IsTerrainKey(SAMPLE_LOCATIONS[i].key)
    ensures exists i :: 0 <= i < |SAMPLE_LOCATIONS| && SAMPLE_LOCATIONS[i].key == Key(t)
  {
    var keys := [Desert, Coastal, Mountains, Plains, Forest, Urban, Suburban, Tropical, Arctic, Temperate];
    forall i | 0 <= i < |SAMPLE_LOCATIONS|
      ensures IsTerrainKey(SAMPLE_LOCATIONS[i].key)
    {
      assert SAMPLE_LOCATIONS[i].key == Key(keys[i]);
      ParseKey(keys[i]);
    }
    match t {
      case Desert => assert SAMPLE_LOCATIONS[0].key == Key(t);
      case Coastal => assert SAMPLE_LOCATIONS[1].key == Key(t);
      case Mountains => assert SAMPLE_LOCATIONS[2].key == Key(t);
      case Plains => assert SAMPLE_LOCATIONS[3].key == Key(t);
      case Forest => assert SAMPLE_LOCATIONS[4].key == Key(t);
      case Urban => assert SAMPLE_LOCATIONS[5].key == Key(t);
      case Suburban => assert SAMPLE_LOCATIONS[6].key == Key(t);
      case Tropical => assert SAMPLE_LOCATIONS[7].key == Key(t);
      case Arctic => assert SAMPLE_LOCATIONS[8].key == Key(t);
      case Temperate => assert SAMPLE_LOCATIONS[9].key == Key(t);
    }
  }

  /** The weights of the four wind factors. */
  datatype Weights = Weights(latitude: real, altitude: real, coastal: real, seasonal: real)

  /** The weight set of a terrain key: five terrains have their own, the rest share a default. */
  function WeightsFor(key: string): (w: Weights)
    ensures w.latitude >= 0.0 && w.altitude >= 0.0 && w.coastal >= 0.0 && w.seasonal >= 0.0
    ensures w.latitude + w.altitude + w.coastal + w.seasonal == 1.0
    ensures key == "coastal" ==> w.coastal > 0.5
    ensures key == "mountains" ==> w.altitude > 0.5
    ensures key == "arctic" ==> w.latitude >= 0.5
  {
    if key == "coastal" then Weights(0.2, 0.1, 0.6, 0.1)
    else if key == "mountains" then Weights(0.2, 0.6, 0.1, 0.1)
    else if key == "plains" then Weights(0.4, 0.2, 0.2, 0.2)
    else if key == "desert" then Weights(0.3, 0.3, 0.2, 0.2)
    else if key == "arctic" then Weights(0.5, 0.2, 0.1, 0.2)
    else Weights(0.3, 0.2, 0.3, 0.2)
  }

  /** The terrains without a weight set of their own, and strings that are no key, share one. */
  lemma WeightsDefault(key: string)
    requires key !in {"coastal", "mountains", "plains", "desert", "arctic"}
    ensures WeightsFor(key) == WeightsFor("temperate")
  {
  }

  /** The combined wind factor: the weighted sum of the four factors. */
  function Combined(latitude: real, altitude: real, coastal: real, seasonal: real, w: Weights): real {
    latitude * w.latitude + altitude * w.altitude + coastal * w.coastal + seasonal * w.seasonal
  }

  /** A weighted sum with weights summing to 1 lies between the least and the greatest factor. */
  lemma CombinedBetween(latitude: real, altitude: real, coastal: real, seasonal: real, w: Weights, lo: real, hi: real)
    requires w.latitude >= 0.0 && w.altitude >= 0.0 && w.coastal >= 0.0 && w.seasonal >= 0.0
    requires w.latitude + w.altitude + w.coastal + w.seasonal == 1.0
    requires lo <= latitude <= hi && lo <= altitude <= hi && lo <= coastal <= hi && lo <= seasonal <= hi
    ensures lo <= Combined(latitude, altitude, coastal, seasonal, w) <= hi
  {
    CombinedAgainst(latitude, altitude, coastal, seasonal, w, lo, hi);
    Distribute(lo, w.latitude, w.altitude, w.coastal, w.seasonal);
    Distribute(hi, w.latitude, w.altitude, w.coastal, w.seasonal);
  }

  /** The weighted sum against the same weights applied to two bounds. */
  lemma CombinedAgainst(latitude: real, altitude: real, coastal: real, seasonal: real, w: Weights, lo: real, hi: real)
    requires w.latitude >= 0.0 && w.altitude >= 0.0 && w.coastal >= 0.0 && w.seasonal >= 0.0
    requires lo <= latitude <= hi && lo <= altitude <= hi && lo <= coastal <= hi && lo <= seasonal <= hi
    ensures lo * w.latitude + lo * w.altitude + lo * w.coastal + lo * w.seasonal
      <= Combined(latitude, altitude, coastal, seasonal, w)
      <= hi * w.latitude + hi * w.altitude + hi * w.coastal + hi * w.seasonal
  {
    CombinedAbove(latitude, altitude, coastal, seasonal, w, lo);
    CombinedBelow(latitude, altitude, coastal, seasonal, w, hi);
  }

  lemma CombinedAbove(latitude: real, altitude: real, coastal: real, seasonal: real, w: Weights, lo: real)
    requires w.latitude >= 0.0 && w.altitude >= 0.0 && w.coastal >= 0.0 && w.seasonal >= 0.0
    requires lo <= latitude && lo <= altitude && lo <= coastal && lo <= seasonal
    ensures lo * w.latitude + lo * w.altitude + lo * w.coastal + lo * w.seasonal
      <= Combined(latitude, altitude, coastal, seasonal, w)
  {
    MulMonotone(w.latitude, lo, latitude);
    MulMonotone(w.altitude, lo, altitude);
    MulMonotone(w.coastal, lo, coastal);
    MulMonotone(w.seasonal, lo, seasonal);
    AddBounds(w.latitude * lo, w.latitude * latitude, w.altitude * lo, w.altitude * altitude,
      w.coastal * lo, w.coastal * coastal, w.seasonal * lo, w.seasonal * seasonal);
  }

  lemma CombinedBelow(latitude: real, altitude: real, coastal: real, seasonal: real, w: Weights, hi: real)
    requires w.latitude >= 0.0 && w.altitude >= 0.0 && w.coastal >= 0.0 && w.seasonal >= 0.0
    requires latitude <= hi && altitude <= hi && coastal <= hi && seasonal <= hi
    ensures Combined(latitude, altitude, coastal, seasonal, w)
      <= hi * w.latitude + hi * w.altitude + hi * w.coastal + hi * w.seasonal
  {
    MulMonotone(w.latitude, latitude, hi);
    MulMonotone(w.altitude, altitude, hi);
    MulMonotone(w.coastal, coastal, hi);
    MulMonotone(w.seasonal, seasonal, hi);
    AddBounds(w.latitude * latitude, w.latitude * hi, w.altitude * altitude, w.altitude * hi,
      w.coastal * coastal, w.coastal * hi, w.seasonal * seasonal, w.seasonal * hi);
  }

  lemma AddBounds(p1: real, q1: real, p2: real, q2: real, p3: real, q3: real, p4: real, q4: real)
    requires p1 <= q1 && p2 <= q2 && p3 <= q3 && p4 <= q4
    ensures p1 + p2 + p3 + p4 <= q1 + q2 + q3 + q4
  {
  }

  lemma Distribute(x: real, a: real, b: real, c: real, d: real)
    requires a + b + c + d == 1.0
    ensures x * a + x * b + x * c + x * d == x
  {
    assert x * a + x * b + x * c + x * d == x * (a + b + c + d);
  }

  /** 70% terrain base, 30% combined factor, rounded. */
  function WindScore(base: int, combined: real): int {
    Round(base as real * 0.7 + combined * 0.3)
  }

  /**
   * The terrain stays the primary factor: the location moves the score by
   * at most 30 points, and the score stays a percentage.
   */
  lemma WindScoreNearBase(base: int, combined: real)
    requires 0 <= base <= 100 && 0.0 <= combined <= 100.0
    ensures 0 <= WindScore(base, combined) <= 100
    ensures base - 30 <= WindScore(base, combined) <= base + 30
  {
    RoundBetween(base as real * 0.7 + combined * 0.3, base - 30, base + 30);
    RoundBetween(base as real * 0.7 + combined * 0.3, 0, 100);
  }

  /** A stronger combined factor never lowers the wind score. */
  lemma WindScoreMonotone(base: int, c1: real, c2: real)
    requires c1 <= c2
    ensures WindScore(base, c1) <= WindScore(base, c2)
  {
    RoundMonotone(base as real * 0.7 + c1 * 0.3, base as real * 0.7 + c2 * 0.3);
  }

  /** The wind score of a location; a NaN altitude factor makes it NaN (None). */
  function LocationWindScore(base: int, latitude: real, altitude: Option<real>, coastal: real, seasonal: real, w: Weights)
    : (r: Option<int>)
    ensures r.Some? <==> altitude.Some?
  {
    match altitude
    case None => None
    case Some(a) => Some(WindScore(base, Combined(latitude, a, coastal, seasonal, w)))
  }

  /** With every factor a percentage, the wind score is one too and stays near the base. */
  lemma LocationWindScoreBounds(base: int, latitude: real, altitude: Option<real>, coastal: real, seasonal: real, w: Weights)
    requires 0 <= base <= 100
    requires 0.0 <= latitude <= 100.0 && 0.0 <= coastal <= 100.0 && 0.0 <= seasonal <= 100.0
    requires altitude.Some? ==> 0.0 <= altitude.value <= 100.0
    requires w.latitude >= 0.0 && w.altitude >= 0.0 && w.coastal >= 0.0 && w.seasonal >= 0.0
    requires w.latitude + w.altitude + w.coastal + w.seasonal == 1.0
    ensures var r := LocationWindScore(base, latitude, altitude, coastal, seasonal, w);
      r.Some? ==> 0 <= r.value <= 100 && base - 30 <= r.value <= base + 30
  {
    if altitude.Some? {
      CombinedBetween(latitude, altitude.value, coastal, seasonal, w, 0.0, 100.0);
      WindScoreNearBase(base, Combined(latitude, altitude.value, coastal, seasonal, w));
    }
  }

  /** The sentences appended to a terrain's wind description. */
  datatype WindNote = CoastalBoost | ElevationBoost | HighLatitude

  /**
   * The notes in the order the source appends them. A NaN altitude factor
   * (None) fails its comparison and adds no note.
   */
  function WindNotes(coastal: real, altitude: Option<real>, lat: real): (notes: seq<WindNote>)
    ensures CoastalBoost in notes <==> coastal > 70.0
    ensures ElevationBoost in notes <==> altitude.Some? && altitude.value > 70.0
    ensures HighLatitude in notes <==> Abs(lat) > 45.0
    ensures forall i, j :: 0 <= i < j < |notes| ==> NoteRank(notes[i]) < NoteRank(notes[j])
  {
    (if coastal > 70.0 then [CoastalBoost] else [])
      + (if altitude.Some? && altitude.value > 70.0 then [ElevationBoost] else [])
      + (if Abs(lat) > 45.0 then [HighLatitude] else [])
  }

  function NoteRank(n: WindNote): nat {
    match n
    case CoastalBoost => 0
    case ElevationBoost => 1
    case HighLatitude => 2
  }

  /** A terrain's wind description followed by the location's notes. */
  datatype WindDescription = WindDescription(base: Description, notes: seq<WindNote>)

  /** The four factors as the analysis panel shows them; a NaN altitude is None. */
  datatype WindFactors = WindFactors(latitude: real, altitude: Option<real>, coastal: real, seasonal: real)

  /**
   * The record handleLocationSelect stores. A NaN wind score (the terrain
   * string is not a key) is None.
   */
  datatype Analysis = Analysis(
    name: string, lat: real, lng: real, key: string,
    solarScore: real,
    windScore: Option<int>,
    solarDescription: Description,
    windDescription: WindDescription,
    windFactors: WindFactors,
    recommendation: Choice)

  /** The analysis of a location, given its coastal factor. */
  function Assemble(loc: Location, coastalFactor: real, m: Transcendentals): (a: Analysis)
    requires m.Sound()
    requires 0.0 <= coastalFactor <= 100.0
    ensures a.name == loc.name && a.lat == loc.lat && a.lng == loc.lng && a.key == loc.key
    ensures 0.0 <= a.solarScore <= 100.0
    ensures a.windScore.Some? <==> IsTerrainKey(loc.key)
    ensures a.windScore.Some? ==> a.recommendation == Recommend(a.solarScore, a.windScore.value as real)
    ensures a.windScore.None? ==> a.recommendation == Both
    ensures a.windDescription.base == WindLookup(loc.key).description
    ensures a.solarDescription == SolarLookup(loc.key).description
  {
    var baseWind := WindLookup(loc.key);
    var latitudeFactor := SeasonalWindFactor(loc.lat);
    var altitudeFactor := EstimateAltitude(loc.lat, loc.lng, loc.key, m);
    var seasonalFactor := SeasonalVariation(loc.lat);
    var w := WeightsFor(loc.key);
    var windScore := LocationWindScore(baseWind.base, latitudeFactor, altitudeFactor, coastalFactor, seasonalFactor, w);
    var solarScore := HeuristicSolarScore(loc.key, loc.lat, m);
    var recommendation := if windScore.None? then Both else Recommend(solarScore, windScore.value as real);
    Analysis(
      loc.name, loc.lat, loc.lng, loc.key,
      solarScore, windScore,
      SolarLookup(loc.key).description,
      WindDescription(baseWind.description, WindNotes(coastalFactor, altitudeFactor, loc.lat)),
      WindFactors(latitudeFactor, altitudeFactor, coastalFactor, seasonalFactor),
      recommendation)
  }

  /** handleLocationSelect's analysis of a location. */
  function Analyze(loc: Location, m: Transcendentals): (a: Analysis)
    requires m.Sound()
  {
    Assemble(loc, CoastalFactor(loc.lat, loc.lng, m), m)
  }

  /**
   * For a latitude on the globe and a terrain key, the wind score is a
   * percentage within 30 points of the terrain's base wind potential.
   */
  lemma AnalyzeWindNearBase(loc: Location, m: Transcendentals)
    requires m.Sound() && IsTerrainKey(loc.key) && -90.0 <= loc.lat <= 90.0
    ensures var a := Analyze(loc, m);
      && a.windScore.Some?
      && 0 <= a.windScore.value <= 100
      && WindLookup(loc.key).base - 30 <= a.windScore.value <= WindLookup(loc.key).base + 30
  {
    SeasonalWindFactorBands(loc.lat);
    LocationWindScoreBounds(WindLookup(loc.key).base, SeasonalWindFactor(loc.lat),
      EstimateAltitude(loc.lat, loc.lng, loc.key, m), CoastalFactor(loc.lat, loc.lng, m),
      SeasonalVariation(loc.lat), WeightsFor(loc.key));
  }

  /**
   * The terrain guess from a geocoder's display name: the first group of
   * words found in the lower-cased name decides, in the order desert,
   * coast, mountains, forest, city; nothing found means temperate.
   */
  function ClassifyDisplayName(displayName: string): (key: string)
    ensures key in {"desert", "coastal", "mountains", "forest", "urban", "temperate"}
    ensures IsTerrainKey(key)
  {
    var d := ToLower(displayName);
    if Contains(d, "desert") || Contains(d, "sahara") then "desert"
    else if Contains(d, "coast") || Contains(d, "beach") || Contains(d, "bay") then "coastal"
    else if Contains(d, "mountain") || Contains(d, "alps") || Contains(d, "peak") then "mountains"
    else if Contains(d, "forest") || Contains(d, "woods") then "forest"
    else if Contains(d, "city") || Contains(d, "downtown") then "urban"
    else "temperate"
  }

  /** Case does not matter to the classifier. */
  lemma ClassifyIgnoresCase(displayName: string)
    ensures ClassifyDisplayName(ToLower(displayName)) == ClassifyDisplayName(displayName)
  {
    ToLowerIdempotent(displayName);
  }

  /** A word of a group found at any position decides the class unless an earlier group matched. */
  lemma ClassifyByOccurrence(displayName: string, i: int)
    ensures OccursAt(ToLower(displayName), "sahara", i) ==> ClassifyDisplayName(displayName) == "desert"
    ensures OccursAt(ToLower(displayName), "bay", i) ==> ClassifyDisplayName(displayName) in {"desert", "coastal"}
    ensures ClassifyDisplayName(displayName) == "temperate" ==> !OccursAt(ToLower(displayName), "city", i)
  {
    var d := ToLower(displayName);
    if OccursAt(d, "sahara", i) { OccursContains(d, "sahara", i); }
    if OccursAt(d, "bay", i) { OccursContains(d, "bay", i); }
    if OccursAt(d, "city", i) { OccursContains(d, "city", i); }
  }

  /** The first result of a geocoder search. */
  datatype SearchResult = SearchResult(displayName: string, lat: real, lon: real)

  /** The location handleSearchSubmit selects for a search result. */
  function LocationOfResult(r: SearchResult): (loc: Location)
    ensures IsTerrainKey(loc.key) && loc.name == r.displayName
  {
    Location(r.displayName, r.lat, r.lon, ClassifyDisplayName(r.displayName))
  }

  class LocationAnalyzer {
    var searchTerm: string
    var selectedLocation: Option<Analysis>
    var suggestions: seq<Location>
    var showSuggestions: bool
    var mapCenter: Option<Point>

    /** The component's initial state. */
    constructor ()
      ensures searchTerm == "" && selectedLocation == None && suggestions == []
      ensures !showSuggestions && mapCenter == None
      ensures Valid()
    {
      searchTerm := "";
      selectedLocation := None;
      suggestions := [];
      showSuggestions := false;
      mapCenter := None;
    }

    /** The dropdown is open only over a non-empty list. */
    predicate Valid()
      reads this
    {
      showSuggestions ==> |suggestions| > 0
    }

    /** handleSearchChange */
    method HandleSearchChange(value: string)
      modifies this
      ensures searchTerm == value
      ensures suggestions == Search.Suggestions(SAMPLE_LOCATIONS, NameOf, value)
      ensures showSuggestions <==> |suggestions| > 0
      ensures selectedLocation == old(selectedLocation) && mapCenter == old(mapCenter)
      ensures Valid()
    {
      searchTerm := value;
      if Utf16Length(value) > 2 {
        var filtered := Search.Filter(SAMPLE_LOCATIONS, NameOf, value);
        suggestions := filtered;
        showSuggestions := |filtered| > 0;
      } else {
        suggestions := [];
        showSuggestions := false;
      }
    }

    /** handleLocationSelect */
    method HandleLocationSelect(loc: Location, m: Transcendentals)
      requires m.Sound()
      modifies this
      ensures selectedLocation == Some(Analyze(loc, m))
      ensures mapCenter == Some(Point(loc.lat, loc.lng))
      ensures searchTerm == loc.name && !showSuggestions
      ensures suggestions == old(suggestions)
      ensures Valid()
    {
      var coastalFactor := CoastalProximity(loc.lat, loc.lng, m);
      mapCenter := Some(Point(loc.lat, loc.lng));
      selectedLocation := Some(Assemble(loc, coastalFactor, m));
      searchTerm := loc.name;
      showSuggestions := false;
    }

    /**
     * handleSearchSubmit, given the geocoder's answer (a failed request
     * reads as an empty answer). Terms under three characters and empty
     * answers change nothing; otherwise the first result is classified and
     * selected.
     */
    method HandleSearchSubmit(results: seq<SearchResult>, m: Transcendentals)
      requires m.Sound() && Valid()
      modifies this
      ensures !Search.SubmitAccepted(old(searchTerm)) || results == [] ==>
        searchTerm == old(searchTerm) && selectedLocation == old(selectedLocation)
        && suggestions == old(suggestions) && showSuggestions == old(showSuggestions)
        && mapCenter == old(mapCenter)
      ensures Search.SubmitAccepted(old(searchTerm)) && results != [] ==>
        && selectedLocation == Some(Analyze(LocationOfResult(results[0]), m))
        && mapCenter == Some(Point(results[0].lat, results[0].lon))
        && searchTerm == results[0].displayName && !showSuggestions
        && suggestions == old(suggestions)
      ensures Valid()
    {
      if Utf16Length(searchTerm) < 3 {
        return;
      }
      if |results| > 0 {
        var result := results[0];
        var loc := LocationOfResult(result);
        mapCenter := Some(Point(result.lat, result.lon));
        HandleLocationSelect(loc, m);
      }
    }
  }

  /** A submitted search always analyzes a terrain key, so it always gets a wind score. */
  lemma SubmittedSearchHasWindScore(r: SearchResult, m: Transcendentals)
    requires m.Sound()
    ensures Analyze(LocationOfResult(r), m).windScore.Some?
  {
  }

  /** Picking a sample from the suggestions always gets a wind score. */
  lemma SampleHasWindScore(i: nat, m: Transcendentals)
    requires m.Sound() && i < |SAMPLE_LOCATIONS|
    ensures Analyze(SAMPLE_LOCATIONS[i], m).windScore.Some?
  {
    SamplesCoverTerrains(Temperate);
  }
}
