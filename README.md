# Ventosol in Dafny

Ventosol is a renewable-energy dashboard. Its logic turns a location, a
terrain or a set of weather readings into 0–100 scores for solar and wind
power and a recommendation: solar, wind, or a hybrid of both. This project
models that logic in Dafny and proves properties of it:

- the **heuristic location analyzer** (`components/location-analyzer.tsx`).
  It scores wind from a terrain table and four geographic factors, which
  are coastal proximity, estimated altitude, a latitude wind factor and a
  seasonal step. It scores sun from a terrain table and the latitude. It
  also holds the search box, the name-based terrain classifier and the
  terrain-label translation
  (`TerrainCatalog`, `GeoFactors`, `HeuristicAnalyzer`);
- the **weather-data location analyzer** (`src/components/location-analyzer.tsx`).
  It scores sun from irradiance interpolated by cloud cover, and wind from
  speed, gust and pressure factors. It also maps degrees to a 16-point
  compass. Every location gets the same fixed simulated readings
  (`WeatherAnalyzer`);
- the shared ±15 **recommendation rule** (`Recommendation`) and the
  **suggestion filter** of both search boxes (`Search`);
- the **map's click handler** (`components/leaflet-map.tsx`). It maps
  reverse-geocoding address tags to a terrain and picks a place name,
  with fallbacks (`LeafletMap`);
- the **energy estimator** (`src/components/energy-estimator.tsx`):
  stepped efficiencies, monthly kWh, savings, payback and coverage
  (`EnergyEstimator`);
- the **dashboard simulations**: the output and efficiency formulas and the
  per-frame state updates of the wind and solar canvases
  (`WindSection`, `SolarSection`), and the partial-record merge of the
  shared conditions (`Dashboard`).

`JsMath` holds the JavaScript number semantics the formulas depend on.
`Math.round` is floor(x + ½). `%` is the truncated remainder, whose sign
follows the dividend. `Math.cos`, `Math.sin`, `Math.sqrt` and `Math.PI`
come from a caller-supplied `Transcendentals` record. Its `Sound()`
predicate states the only facts the proofs use: cos and sin in [−1, 1],
sqrt ≥ 0, sqrt(0) = 0, cos(0) = 1 and π > 0. `Text` holds ASCII case
mapping, `includes` and `toFixed`. Numbers are exact reals.

JavaScript NaN and `undefined` results are modelled as `None` where the
code can produce them:

- A terrain string that is not a table key (nor a property name the
  tables inherit from `Object.prototype`) gives a NaN altitude factor and
  a NaN wind score. Every comparison with NaN is false, so the
  recommendation is then "both".
- A negative compass index reads outside the direction array.

The other NaN/Infinity paths are excluded by preconditions:

- payback when the price per kWh is 0;
- coverage when consumption is 0.

Gusts with a wind speed of 0 give Infinity inside `Math.min`, so the gust
factor is 0. That case is modelled as the code computes it.

The latitude wind factor is discontinuous: it drops at 30° and at 60° of
latitude; `GeoFactors.SeasonalWindFactorBands` proves both drops.

## Model

| member | source | states |
|---|---|---|
| JsMath.Round | src/components/location-analyzer.tsx:357 | `Math.round` lies within half a unit of its argument, halves rounding up |
| JsMath.RoundBetween | components/location-analyzer.tsx:524-526 | rounding a value between two integers stays between them |
| JsMath.Clamp | components/location-analyzer.tsx:415 | `Math.min(hi, Math.max(lo, x))` lies in [lo, hi], is x inside the range and the nearer end outside it |
| JsMath.TruncRem | components/wind-section.tsx:133 | JavaScript `%` with a positive divisor has the sign of the dividend and magnitude below the divisor |
| JsMath.TruncRemSmall | components/wind-section.tsx:23 | a dividend already inside (−b, b) is its own remainder |
| JsMath.TruncRemShift | components/wind-section.tsx:23 | for non-negative dividends, adding one divisor leaves the remainder unchanged |
| JsMath.TruncRemInt | src/components/location-analyzer.tsx:488 | the integer `%` keeps the dividend's sign: [0, b) for non-negative and (−b, 0] for negative dividends |
| JsMath.SoundSatisfiable | components/location-analyzer.tsx:363-366 | the facts assumed of cos, sin, sqrt and π hold together for some functions |
| Text.OccursContains | src/components/location-analyzer.tsx:155 | an occurrence of the term at any index makes `includes` true |
| Text.ContainsOccurs | src/components/location-analyzer.tsx:155 | `includes` is true only when the term occurs at some index |
| Text.ToLowerIdempotent | components/location-analyzer.tsx:280 | lower-casing twice equals lower-casing once |
| Text.ToFixedShape | components/leaflet-map.tsx:73 | `toFixed(f)` prints an optional sign, at least one integer digit and, when f > 0, a point and exactly f digits; the digits read together equal \|x\|·10^f rounded to the nearest integer |
| TerrainCatalog.ParseKey | components/location-analyzer.tsx:30-168 | each of the ten terrain keys names its own terrain, so both tables have an entry for every terrain |
| TerrainCatalog.KeyInjective | components/location-analyzer.tsx:30-99 | no two terrains share a table key |
| TerrainCatalog.WindPotential | components/location-analyzer.tsx:30-99 | every wind base is in [0, 100] and carries that terrain's description |
| TerrainCatalog.SolarPotential | components/location-analyzer.tsx:103-168 | every solar base is in [0, 100] and carries that terrain's description |
| TerrainCatalog.WindLookup | components/location-analyzer.tsx:449-450 | the wind entry of any string has a base in [0, 100]; a string that is neither a key nor an inherited `Object.prototype` property name falls back to the temperate entry |
| TerrainCatalog.SolarLookup | components/location-analyzer.tsx:552-553 | the same for the solar table |
| TerrainCatalog.LookupOfKey | components/location-analyzer.tsx:449-450 | looking up a terrain's key finds that terrain's own entries |
| TerrainCatalog.TableExtremes | components/location-analyzer.tsx:30-168 | mountains have the most wind and urban areas the least; deserts have the most sun and arctic regions the least |
| TerrainCatalog.BaseAltitude | components/location-analyzer.tsx:384-395 | every base altitude is between 50 m and 2000 m |
| TerrainCatalog.TerrainLabel | components/location-analyzer.tsx:599-624 | any string that is not a key is labelled "temperado" |
| TerrainCatalog.LabelsDistinct | components/location-analyzer.tsx:599-624 | the ten keys get ten different labels |
| TerrainCatalog.CapitalizedIsNotKey | components/location-analyzer.tsx:626-629 | a capitalised terrain name is never a table key |
| TerrainCatalog.DisplayedLabelAlwaysDefault | components/location-analyzer.tsx:703-706 | as written, the label shown for every terrain is "temperado" |
| TerrainCatalog.DisplayedLabelDistinguishesTerrains | components/location-analyzer.tsx:599-624 | translating the key itself shows different labels for different terrains |
| Recommendation.Recommend | components/location-analyzer.tsx:572-577 | solar iff the solar score exceeds wind + 15, wind iff the wind score exceeds solar + 15, both iff they differ by at most 15 |
| Recommendation.RecommendMirror | src/components/location-analyzer.tsx:448-453 | swapping the two scores swaps solar and wind and keeps "both" |
| Recommendation.RecommendBoundary | components/location-analyzer.tsx:572-577 | at the boundary: a 15-point lead (70 against 55) is still "both", a 16-point lead is "solar", and equal scores are "both" |
| Search.Filter | src/components/location-analyzer.tsx:154-156 | the filter returns no more entries than the samples |
| Search.FilterMembership | src/components/location-analyzer.tsx:154-156 | an entry is suggested iff it is a sample whose lower-cased name includes the lower-cased term |
| Search.FilterAppend | components/location-analyzer.tsx:244-246 | the filter distributes over concatenation, so suggestions keep the samples' order |
| Search.FilterAllMatch | components/location-analyzer.tsx:244-246 | every suggestion matches the term |
| Search.SuggestionsMembership | src/components/location-analyzer.tsx:153-162 | a sample is suggested iff the value is longer than two UTF-16 code units and the sample's lower-cased name includes the lower-cased value |
| Text.Utf16Length | src/components/location-analyzer.tsx:153 | `.length` counts at least one and at most two code units per character, and equals the character count iff no character lies above U+FFFF |
| Text.Utf16LengthSurrogatePair | components/location-analyzer.tsx:244 | a character above U+FFFF counts twice: "a😀" has two characters but length 3 |
| GeoFactors.Distance | components/location-analyzer.tsx:363-366 | the distance to a reference point is never negative |
| GeoFactors.NearestIsMinimum | components/location-analyzer.tsx:359-368 | the `Math.min` fold is at most every point's distance, lies in [0, MAX_VALUE], and is one of the distances unless it is MAX_VALUE |
| GeoFactors.CoastalProximity | components/location-analyzer.tsx:327-374 | the loop's running minimum equals the fold over the points seen so far, and the method returns the coastal factor of the nearest point |
| GeoFactors.CoastalScore | components/location-analyzer.tsx:372 | the score is in [0, 100] and is 0 iff the distance is at least 1000 km |
| GeoFactors.CoastalScoreAntitone | components/location-analyzer.tsx:372 | a nearer coast never scores less |
| GeoFactors.CoastalFactor | components/location-analyzer.tsx:327-374 | the coastal factor of any location is in [0, 100] |
| GeoFactors.CoastalFactorAtReference | components/location-analyzer.tsx:329-373 | at each of the 16 reference points the coastal factor is exactly 100 |
| GeoFactors.AltitudeScore | components/location-analyzer.tsx:407-415 | the altitude score is in [0, 100] |
| GeoFactors.AltitudeScoreShape | components/location-analyzer.tsx:407-415 | the score peaks at 100 at 3000 m, rises up to there (altitude/30 on [0, 3000]) and falls beyond |
| GeoFactors.PerturbedAltitude | components/location-analyzer.tsx:399-403 | the estimated altitude is the terrain's base ±600 m |
| GeoFactors.EstimateAltitude | components/location-analyzer.tsx:378-416 | the factor is defined (not NaN) iff the terrain is a table key, and is then in [0, 100] |
| GeoFactors.EstimateAltitudeBand | components/location-analyzer.tsx:384-415 | no estimate exceeds 2600 m, so only the linear branch is reachable; the score lies between the scores of base − 600 m and base + 600 m |
| GeoFactors.SeasonalWindFactor | components/location-analyzer.tsx:419-437 | the factor is below 95, and at least 70 on the globe |
| GeoFactors.SeasonalWindFactorSymmetric | components/location-analyzer.tsx:424 | the factor depends only on the distance from the equator |
| GeoFactors.SeasonalWindFactorBands | components/location-analyzer.tsx:426-436 | tropics in [70, 90), mid-latitudes in [80, 95), polar regions in [80, 90]; 80 at 30° and 90 at 60°; the factor drops by more than 7 points at 30° and more than 3 at 60° |
| GeoFactors.SeasonalVariationMonotone | components/location-analyzer.tsx:460 | farther from the equator never gives a smaller step |
| GeoFactors.SolarLatitudeAdjustment | components/location-analyzer.tsx:555-561 | the latitude adjustment of the solar score is at most 30 points |
| GeoFactors.HeuristicSolarScore | components/location-analyzer.tsx:552-567 | the solar score is in [0, 100] and at most base + 30 − 0.3·\|lat\| (or 0) |
| GeoFactors.HeuristicSolarAtEquator | components/location-analyzer.tsx:555-567 | on the equator the score is the base plus the full 30 points, capped at 100 |
| HeuristicAnalyzer.SamplesCoverTerrains | components/location-analyzer.tsx:171-207 | every sample location names a table key, and every terrain has a sample |
| HeuristicAnalyzer.WeightsFor | components/location-analyzer.tsx:465-513 | every weight set is non-negative and sums to 1; coastal weighs proximity above 0.5, mountains weigh altitude above 0.5, arctic weighs latitude at least 0.5 |
| HeuristicAnalyzer.WeightsDefault | components/location-analyzer.tsx:506-512 | every terrain other than the five named cases, and every non-key, gets the default set |
| HeuristicAnalyzer.CombinedBetween | components/location-analyzer.tsx:516-520 | with weights summing to 1, the combined factor lies between the smallest and the largest factor |
| HeuristicAnalyzer.WindScoreNearBase | components/location-analyzer.tsx:524-526 | with a base and a combined factor in [0, 100], the wind score is in [0, 100] and within 30 points of the base |
| HeuristicAnalyzer.WindScoreMonotone | components/location-analyzer.tsx:524-526 | a larger combined factor never lowers the wind score |
| HeuristicAnalyzer.LocationWindScore | components/location-analyzer.tsx:516-526 | the wind score is defined iff the altitude factor is |
| HeuristicAnalyzer.LocationWindScoreBounds | components/location-analyzer.tsx:516-526 | with every factor in [0, 100] and a valid weight set, a defined wind score is in [0, 100] and within 30 points of the base |
| HeuristicAnalyzer.WindNotes | components/location-analyzer.tsx:537-549 | the coastal note appears iff coastal > 70, the elevation note iff altitude > 70, the latitude note iff \|lat\| > 45, in that order |
| HeuristicAnalyzer.Assemble | components/location-analyzer.tsx:449-591 | the analysis keeps the location's name, coordinates and key; its solar score is in [0, 100]; it has a wind score iff the key is a terrain key; the recommendation follows the ±15 rule, or is "both" without a wind score; the descriptions come from the terrain's entries |
| HeuristicAnalyzer.AnalyzeWindNearBase | components/location-analyzer.tsx:449-526 | for a terrain key and a latitude on the globe, the wind score exists, is in [0, 100] and lies within 30 points of the terrain's base |
| HeuristicAnalyzer.ClassifyDisplayName | components/location-analyzer.tsx:276-305 | the guessed terrain is always one of desert, coastal, mountains, forest, urban and temperate, and so a table key |
| HeuristicAnalyzer.ClassifyIgnoresCase | components/location-analyzer.tsx:280 | the classifier ignores letter case |
| HeuristicAnalyzer.ClassifyByOccurrence | components/location-analyzer.tsx:281-305 | "sahara" anywhere means desert; "bay" anywhere gives coastal, or desert when a desert word matched first; a temperate result means "city" occurs nowhere |
| HeuristicAnalyzer.LocationOfResult | components/location-analyzer.tsx:307-318 | a search result becomes a location with the result's name and a terrain key |
| HeuristicAnalyzer.LocationAnalyzer.constructor | components/location-analyzer.tsx:228-236 | the component starts with an empty search, no selection, no suggestions and no map centre, with the dropdown closed over an empty list |
| HeuristicAnalyzer.LocationAnalyzer.HandleSearchChange | components/location-analyzer.tsx:240-254 | the term is stored, the suggestions are the filtered samples, the dropdown is shown iff the list is non-empty, and the rest of the state is unchanged |
| HeuristicAnalyzer.LocationAnalyzer.HandleLocationSelect | components/location-analyzer.tsx:440-595 | the coastal loop runs and the stored analysis equals the analysis of the location; the map centres on it, the search box shows its name and the dropdown closes |
| HeuristicAnalyzer.LocationAnalyzer.HandleSearchSubmit | components/location-analyzer.tsx:257-323 | terms shorter than three code units and empty answers change nothing; otherwise the first result is classified, centred and analysed, the search box shows its name, the dropdown closes and the suggestion list is kept; the dropdown stays open only over a non-empty list |
| HeuristicAnalyzer.SubmittedSearchHasWindScore | components/location-analyzer.tsx:276-318 | a searched location always gets a wind score |
| HeuristicAnalyzer.SampleHasWindScore | components/location-analyzer.tsx:171-207 | a sample location picked from the suggestions always gets a wind score |
| WeatherAnalyzer.ActualGhi | src/components/location-analyzer.tsx:349-352 | the interpolated GHI is the clear-sky value at 0% cloud and the cloudy-sky value at 100% |
| WeatherAnalyzer.ActualGhiBetween | src/components/location-analyzer.tsx:349-352 | for cloud cover in [0, 100] the GHI lies between the two readings |
| WeatherAnalyzer.SolarScore | src/components/location-analyzer.tsx:356-360 | the solar score is at most 100, non-negative for a non-negative GHI, and exactly 100 iff the GHI is at least 6965 |
| WeatherAnalyzer.IrradiancePhrase | src/components/location-analyzer.tsx:365-375 | the first phrase is one of the four irradiance phrases, and the limited one iff GHI ≤ 1000 |
| WeatherAnalyzer.CloudPhrase | src/components/location-analyzer.tsx:377-385 | the second phrase is one of the three cloud phrases, and the clear-sky one iff cover ≤ 30 |
| WeatherAnalyzer.IrradiancePhraseMonotone | src/components/location-analyzer.tsx:365-375 | more irradiance never gets a weaker phrase |
| WeatherAnalyzer.SolarDescription | src/components/location-analyzer.tsx:363-385 | the description has exactly one irradiance phrase followed by exactly one cloud phrase |
| WeatherAnalyzer.WindSpeedFactor | src/components/location-analyzer.tsx:392-401 | for speed ≥ 0 the factor is in [0, 100] |
| WeatherAnalyzer.WindSpeedFactorShape | src/components/location-analyzer.tsx:392-401 | the factor is continuous at 3 and 12 m/s; it is 80 at 7 m/s but above 94 just below, so it is not monotone |
| WeatherAnalyzer.GustFactor | src/components/location-analyzer.tsx:404-412 | 80 without a gust (absent or 0); in [0, 100] when the gust is at least the speed; above 100 when the gust is below the speed |
| WeatherAnalyzer.PressureFactor | src/components/location-analyzer.tsx:416-419 | the factor is non-negative, 0 iff pressure ≥ 1100, and above 100 iff pressure < 900 |
| WeatherAnalyzer.WindScoreRange | src/components/location-analyzer.tsx:422-424 | with all three factors in [0, 100] the wind score is in [0, 100] |
| WeatherAnalyzer.SpeedPhraseMatchesFactor | src/components/location-analyzer.tsx:428-438 | the speed phrase names the same band as the speed factor: low iff the factor is below 60, very high only at factor 100 |
| WeatherAnalyzer.WindDescription | src/components/location-analyzer.tsx:427-445 | the speed phrase comes first; the gust warning is appended iff a gust above 1.5 times the speed is given |
| WeatherAnalyzer.EnergyPotential | src/components/location-analyzer.tsx:335-466 | the analysis keeps the place and readings, its solar score is at most 100, and the recommendation follows the ±15 rule on its two scores |
| WeatherAnalyzer.EnergyPotentialSolarRange | src/components/location-analyzer.tsx:349-360 | with cloud cover in [0, 100] and non-negative GHIs the solar score is in [0, 100] |
| WeatherAnalyzer.EnergyPotentialWindRange | src/components/location-analyzer.tsx:392-424 | with gusts at least the mean speed and pressure at least 900 hPa the wind score is in [0, 100] |
| WeatherAnalyzer.SimulatedOutcome | src/components/location-analyzer.tsx:232-303 | with the simulated readings every location scores 33 for sun and 65 for wind, wind is recommended, and no gust warning is added |
| WeatherAnalyzer.CompassIndex | src/components/location-analyzer.tsx:488 | the index is in [−15, 15] and is non-negative for bearings from −11.25° |
| WeatherAnalyzer.WindDirection | src/components/location-analyzer.tsx:469-490 | bearings from −11.25° get a name, and every name is one of the sixteen points |
| WeatherAnalyzer.WindDirectionAtPoints | src/components/location-analyzer.tsx:470-488 | the bearing k·22.5° gets the k-th point's name |
| WeatherAnalyzer.WindDirectionCardinals | src/components/location-analyzer.tsx:469-490 | 0° and 360° are N, 90° is E, 180° is S and 270° is W |
| WeatherAnalyzer.WindDirectionPeriodic | src/components/location-analyzer.tsx:488 | a full turn names the same direction |
| WeatherAnalyzer.WindDirectionNegative | src/components/location-analyzer.tsx:488-489 | −22.5° reads outside the array, but −360° gives N |
| WeatherAnalyzer.AssessSolar | src/components/location-analyzer.tsx:344-385 | the step-by-step solar computation yields the solar score and description of the interpolated GHI |
| WeatherAnalyzer.AssessWind | src/components/location-analyzer.tsx:392-445 | the step-by-step wind computation yields the wind score of the three factors and the wind description |
| WeatherAnalyzer.LocationAnalyzer.constructor | src/components/location-analyzer.tsx:136-145 | the component starts with an empty search, no selection, no suggestions and no map centre |
| WeatherAnalyzer.LocationAnalyzer.HandleSearchChange | src/components/location-analyzer.tsx:149-163 | the term is stored, the suggestions are the filtered samples, and the dropdown is shown iff the list is non-empty |
| WeatherAnalyzer.LocationAnalyzer.CalculateEnergyPotential | src/components/location-analyzer.tsx:335-466 | the stored analysis equals the energy potential of the place and readings; the search state is unchanged |
| WeatherAnalyzer.LocationAnalyzer.FetchWeatherAndIrradianceData | src/components/location-analyzer.tsx:204-316 | the place is analysed with the fixed simulated readings |
| WeatherAnalyzer.LocationAnalyzer.HandleLocationSelect | src/components/location-analyzer.tsx:319-332 | the map centres on the place, which is analysed; the search box shows its name and the dropdown closes |
| WeatherAnalyzer.LocationAnalyzer.HandleSearchSubmit | src/components/location-analyzer.tsx:166-201 | terms shorter than three code units and empty answers change nothing; otherwise the first result is centred and analysed, leaving the search box as it is |
| LeafletMap.TerrainFromAddress | components/leaflet-map.tsx:46-66 | the terrain is one of six keys, temperate without an address, and coastal iff the natural tag is beach or coastline |
| LeafletMap.TerrainFromAddressIsKey | components/leaflet-map.tsx:46-66 | every terrain the map derives has entries in the analyzer's tables |
| LeafletMap.TerrainFromAddressPriority | components/leaflet-map.tsx:47-64 | the first matching tag wins: coastline beats everything, forest beats city, suburb counts only without natural and landuse tags, and no tags give temperate |
| LeafletMap.FallbackName | components/leaflet-map.tsx:73 | the fallback name starts with "Location at " followed by the coordinates |
| LeafletMap.PlaceName | components/leaflet-map.tsx:71-73 | a present, non-empty display name is used, anything else gets the fallback, and the name is never empty |
| LeafletMap.ClickLocation | components/leaflet-map.tsx:33-86 | the location keeps the clicked coordinates and has a terrain key; a failed lookup gives the fallback name and temperate |
| LeafletMap.FailureLikeEmptyAnswer | components/leaflet-map.tsx:76-84 | a failed lookup selects the same location as an answer with no name and no address |
| LeafletMap.Map.constructor | components/leaflet-map.tsx:111-113 | the map starts without a marker |
| LeafletMap.Map.HandleLocationSelect | components/leaflet-map.tsx:125-133 | the marker moves to the location, which is forwarded unchanged |
| LeafletMap.Map.HandleMapClick | components/leaflet-map.tsx:33-86 | the click forwards the click location through the map's handler and moves the marker to the click |
| EnergyEstimator.SolarEfficiency | src/components/energy-estimator.tsx:30-36 | 0 for a null or zero UV index, otherwise one of 0.21, 0.19, 0.17 and 0.15 |
| EnergyEstimator.WindEfficiency | src/components/energy-estimator.tsx:38-44 | 0 for a null or zero speed, otherwise one of 0.45, 0.4, 0.35 and 0.2 |
| EnergyEstimator.EfficienciesMonotone | src/components/energy-estimator.tsx:30-44 | for positive readings both efficiencies are non-decreasing |
| EnergyEstimator.SolarKWh | src/components/energy-estimator.tsx:46-49 | 0 for a null or zero UV index, and non-negative for non-negative inputs |
| EnergyEstimator.SolarKWhScalesWithArea | src/components/energy-estimator.tsx:46-49 | the solar estimate is proportional to the panel area |
| EnergyEstimator.WindKWh | src/components/energy-estimator.tsx:51-65 | 0 for a null or zero speed, and non-negative for a non-negative speed |
| EnergyEstimator.WindKWhScalesWithRadiusSquared | src/components/energy-estimator.tsx:51-65 | doubling the rotor radius quadruples the wind estimate |
| EnergyEstimator.Economy | src/components/energy-estimator.tsx:137-138 | savings are non-negative for non-negative inputs, and 0 without production or without a price |
| EnergyEstimator.Payback | src/components/energy-estimator.tsx:144-145 | there is no payback iff production is at most 0; otherwise months × monthly savings equals the installation cost |
| EnergyEstimator.Coverage | src/components/energy-estimator.tsx:146-147 | coverage is at most 100, non-negative for positive consumption, and exactly 100 iff production reaches consumption |
| EnergyEstimator.Compare | src/components/energy-estimator.tsx:134-147 | the panel's kWh, savings, bill, paybacks and coverages are those of the estimator's formulas; each payback is absent iff its production is at most 0 and otherwise recovers the installation cost from the monthly savings; each coverage is at most 100, and exactly 100 iff production reaches consumption |
| EnergyEstimator.DefaultComparison | src/components/energy-estimator.tsx:70-81 | with the defaults the bill is 112.5; without readings nothing is produced; at UV index 5 the panel makes 255 kWh, saves 191.25 and covers the consumption |
| WindSection.EnergyOutputRange | components/wind-section.tsx:21 | over the slider's 0–50 m/s the output is a percentage that grows with speed, 0 at 0 and 100 at 50 |
| WindSection.EfficiencyRange | components/wind-section.tsx:22-24 | for non-negative directions the efficiency is in [45, 90] |
| WindSection.EfficiencyShape | components/wind-section.tsx:22-24 | the efficiency is 90 at 90° and at 270°, and a direction and its opposite score the same |
| WindSection.DirectionFactorShape | components/wind-section.tsx:129-135 | on [90°, 360°] the factor is 1 − \|d − 270\|/180, in [0, 1], peaking at 270° and 0 at the "optimal" 90°; below 90° it is (d − 90)/180, negative (−0.5 at 0°) |
| WindSection.RotationSpeed | components/wind-section.tsx:136 | without wind the rotors do not turn |
| WindSection.Wrap | components/wind-section.tsx:94-97 | a wrapped coordinate is in [0, limit] and unchanged if it was already inside |
| WindSection.StepParticle | components/wind-section.tsx:86-97 | after a frame a particle is inside the canvas with its speed and size unchanged |
| WindSection.StepParticleCalm | components/wind-section.tsx:86-97 | without wind a particle inside the canvas stays put |
| WindSection.WindScene.constructor | components/wind-section.tsx:46-65 | 100 particles inside the canvas with speeds in [1, 3] and sizes in [1, 4], three rotor angles at 0, and lastTime 0 |
| WindSection.WindScene.Animate | components/wind-section.tsx:67-137 | every particle takes one step in place; every rotor angle grows by rotationSpeed·deltaTime/50; lastTime becomes the frame time; the particles stay inside the canvas |
| SolarSection.EnergyOutputShape | components/solar-section.tsx:21-26 | on the sliders' ranges the output is in [0, 100], 0 under full cloud or no sun, and largest at a 45° sun |
| SolarSection.EfficiencyRange | components/solar-section.tsx:27-29 | on the sliders' ranges the efficiency is in [28, 100], reaching both ends |
| SolarSection.CloudCountRange | components/solar-section.tsx:69 | for cover in [0, 100] there are 1 to 6 clouds, 1 at 0% and 6 at 100% |
| SolarSection.SunPositionBounds | components/solar-section.tsx:96-99 | for angles in [0, 90] the sun's x is in [0.2w, 0.8w] and its y in [0.1h, 0.6h] |
| SolarSection.PanelAngle | components/solar-section.tsx:174-176 | the tilt is in [10°, 80°] and is 0.8 of the sun's angle whenever that is in range |
| SolarSection.RayOpacityRange | components/solar-section.tsx:219-221 | when rays are drawn their opacity is in (0, 1] |
| SolarSection.DriftCloud | components/solar-section.tsx:141-146 | a frame changes only a cloud's x |
| SolarSection.DriftStaysInBand | components/solar-section.tsx:141-146 | drifting keeps x in [−width, canvas width + width] |
| SolarSection.NewCloud | components/solar-section.tsx:72-78 | a new cloud starts inside the canvas with width in [50, 150), height in [20, 60) and speed in [0.1, 0.6) |
| SolarSection.SolarScene.constructor | components/solar-section.tsx:62-79 | the scene has exactly cloudCount clouds, all starting inside the canvas |
| SolarSection.SolarScene.Animate | components/solar-section.tsx:141-146 | every cloud drifts once in place, and all stay in their band |
| Dashboard.InitialInSliderRanges | components/dashboard.tsx:19-25 | the initial conditions lie within every slider's range |
| Dashboard.MergeFields | components/dashboard.tsx:27-29 | every field present in the patch takes its value; every absent field keeps the previous one |
| Dashboard.MergeEmpty | components/dashboard.tsx:27-29 | an empty patch leaves the conditions as they were |
| Dashboard.MergeTwice | components/dashboard.tsx:27-29 | applying p then q equals applying one combined patch in which q's fields win |
| Dashboard.MergeFullPatch | components/dashboard.tsx:27-29 | a patch that sets every field replaces the conditions entirely |
| Dashboard.MergeKeepsRanges | components/dashboard.tsx:27-29 | slider patches keep the conditions within the sliders' ranges |
| Dashboard.Dashboard.constructor | components/dashboard.tsx:19-25 | the dashboard starts from the initial conditions, within the sliders' ranges |
| Dashboard.Dashboard.UpdateConditions | components/dashboard.tsx:27-29 | the new conditions are the previous ones merged with the patch, and they stay within the sliders' ranges |

## Left out

- Network I/O: the geocoder and weather `fetch` calls are not modelled. Their answers are input records, and a failed request reads as an empty answer (`Lookup.Failed` for the map). Async handling, loading and error flags, and commented-out API calls are also out.
- Rendering is out: JSX, cards, progress bars, tooltips and tabs. The info panel, the layout and the slider widgets are also out. Only the control panel's slider ranges are used, as preconditions.
- Canvas drawing is out: gradients, arcs, rays, grids, `requestAnimationFrame` and the resize listeners. Only the per-frame state updates are modelled, and the canvas size is fixed per scene.
- `Math.random` is a parameter sequence of draws in [0, 1).
- `Math.cos`, `Math.sin`, `Math.sqrt` and `Math.PI` are record fields that the caller chooses. No concrete score that depends on them is computed.
- Floating point is exact real arithmetic. `toFixed` is modelled for the value an exact real prints. The exponential notation JavaScript uses from 10^21 up is not modelled.
- Case mapping covers ASCII letters only.
- TerrainCatalog.WindLookup: models `BASE_WIND_POTENTIAL[key] || BASE_WIND_POTENTIAL.temperate` for all strings as a table of the ten keys with a temperate fallback. A property name the table object inherits from `Object.prototype` (such as "constructor") finds an inherited member with no `base` in JavaScript, and the scores become NaN; the model gives the temperate entry instead. No caller produces such a string: samples, the classifier and the map's tags all give keys. TerrainCatalog.SolarLookup is modelled the same way.
- `Number.parseFloat` of the geocoder's coordinates is out. Results carry numbers.
- The description texts are opaque: phrase and description datatypes record which text is chosen and in what order.
- `kelvinToCelsius`, `toLocaleTimeString` and the weather fields that no score uses are presentation only. The same holds for the ray length `maxRayLength·rayIntensity`.
- SolarSection.PanelAngle: states the tilt in degrees. The source then multiplies it by π/180 for the canvas rotation, which is drawing.
- LeafletMap.Map.HandleMapClick: does not model a second `onLocationSelect` call when the first one throws inside the `try` block. The selection handler does not throw.
- WeatherAnalyzer.GustFactor: requires non-negative speed and gust readings, which is what a weather service reports. Negative readings are not modelled.
- WeatherAnalyzer.EnergyPotential: requires the same non-negative wind readings.
- WeatherAnalyzer.WindDirection: states that a name exists only for bearings from −11.25°. Below that, `WindDirectionNegative` gives one bearing with no name and one that reads N.
- GeoFactors.SolarLatitudeAdjustment: states only the upper bound of 30. The lower bound depends on the cosine's value.
- HeuristicAnalyzer.AnalyzeWindNearBase: requires a latitude in [−90, 90]. Beyond it the latitude factor can leave [0, 100].
- EnergyEstimator.Payback: requires a non-zero price per kWh when there is production. Otherwise JavaScript gives Infinity.
- EnergyEstimator.Coverage: requires non-zero consumption. Otherwise JavaScript gives NaN or Infinity.
- EnergyEstimator.Compare: requires a non-zero price and non-zero consumption, for the same reasons.
- SolarSection.SolarScene.constructor: requires cloud cover within the slider's range [0, 100].
- Dashboard.Patch: a patch field set explicitly to `undefined` is not modelled. A patch field is either present with a number or absent.

## Findings

| source | as written | input that shows it | evidently intended | confidence | as-written member | corrected member |
|---|---|---|---|---|---|---|
| components/location-analyzer.tsx:703-706 | the panel passes the capitalised terrain key (`"Desert"`) to `mapTerrainType`, which matches only lower-case keys | a location of terrain `desert` shows "temperado" instead of "deserto" | translate the lower-case key itself | high, not executed | TerrainCatalog.DisplayedLabelAlwaysDefault | TerrainCatalog.DisplayedLabelDistinguishesTerrains |
