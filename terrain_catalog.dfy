/**
 * The terrain tables of the heuristic location analyzer: the wind and solar
 * base potentials (BASE_WIND_POTENTIAL, BASE_SOLAR_POTENTIAL), the base
 * altitudes used by estimateAltitude, and the Portuguese terrain labels of
 * mapTerrainType. The source indexes every table with a terrain KEY string;
 * `Key` and `Parse` connect those strings with the `Terrain` datatype.
 */
module TerrainCatalog {
  import opened Wrappers
  import opened Text

  datatype Terrain =
    | Coastal | Mountains | Plains | Desert | Arctic
    | Temperate | Tropical | Suburban | Forest | Urban

  /** The property name of a terrain in the source's tables. */
  function Key(t: Terrain): (k: string)
    ensures |k| > 0 && 'a' <= k[0] <= 'z'
  {
    match t
    case Coastal => "coastal"
    case Mountains => "mountains"
    case Plains => "plains"
    case Desert => "desert"
    case Arctic => "arctic"
    case Temperate => "temperate"
    case Tropical => "tropical"
    case Suburban => "suburban"
    case Forest => "forest"
    case Urban => "urban"
  }

  /** The terrain whose table entry a key string names, if any. */
  function Parse(key: string): (r: Option<Terrain>)
    ensures r.Some? ==> Key(r.value) == key
  {
    if key == "coastal" then Some(Coastal)
    else if key == "mountains" then Some(Mountains)
    else if key == "plains" then Some(Plains)
    else if key == "desert" then Some(Desert)
    else if key == "arctic" then Some(Arctic)
    else if key == "temperate" then Some(Temperate)
    else if key == "tropical" then Some(Tropical)
    else if key == "suburban" then Some(Suburban)
    else if key == "forest" then Some(Forest)
    else if key == "urban" then Some(Urban)
    else None
  }

  predicate IsTerrainKey(key: string) {
    Parse(key).Some?
  }

  /** Every terrain's key names that terrain: each table has all ten entries. */
  lemma ParseKey(t: Terrain)
    ensures Parse(Key(t)) == Some(t)
  {
  }

  /** A key names at most one terrain. */
  lemma KeyInjective(t: Terrain, u: Terrain)
    requires Key(t) == Key(u)
    ensures t == u
  {
    ParseKey(t);
    ParseKey(u);
  }

  /** Stands for the description text of a terrain's table entry. */
  datatype Description = WindText(windOf: Terrain) | SolarText(solarOf: Terrain)

  /** One entry of a potential table: `{ base, description }`. */
  datatype Potential = Potential(base: int, description: Description)

  /** BASE_WIND_POTENTIAL */
  function WindPotential(t: Terrain): (p: Potential)
    ensures 0 <= p.base <= 100
    ensures p.description == WindText(t)
  {
    var base := match t
      case Coastal => 85
      case Mountains => 90
      case Plains => 75
      case Desert => 65
      case Arctic => 80
      case Temperate => 60
      case Tropical => 55
      case Suburban => 40
      case Forest => 30
      case Urban => 25;
    Potential(base, WindText(t))
  }

  /** BASE_SOLAR_POTENTIAL */
  function SolarPotential(t: Terrain): (p: Potential)
    ensures 0 <= p.base <= 100
    ensures p.description == SolarText(t)
  {
    var base := match t
      case Desert => 95
      case Tropical => 85
      case Coastal => 75
      case Plains => 80
      case Suburban => 70
      case Temperate => 65
      case Urban => 60
      case Mountains => 70
      case Forest => 50
      case Arctic => 35;
    Potential(base, SolarText(t))
  }

  /** `BASE_WIND_POTENTIAL[key] || BASE_WIND_POTENTIAL.temperate` */
  function WindLookup(key: string): (p: Potential)
    ensures 0 <= p.base <= 100
    ensures !IsTerrainKey(key) ==> p == WindPotential(Temperate)
  {
    WindPotential(Parse(key).GetOr(Temperate))
  }

  /** `BASE_SOLAR_POTENTIAL[key] || BASE_SOLAR_POTENTIAL.temperate` */
  function SolarLookup(key: string): (p: Potential)
    ensures 0 <= p.base <= 100
    ensures !IsTerrainKey(key) ==> p == SolarPotential(Temperate)
  {
    SolarPotential(Parse(key).GetOr(Temperate))
  }

  /** A key of the tables finds its own entry. */
  lemma LookupOfKey(t: Terrain)
    ensures WindLookup(Key(t)) == WindPotential(t)
    ensures SolarLookup(Key(t)) == SolarPotential(t)
  {
    ParseKey(t);
  }

  /**
   * The rankings the tables' comments announce: mountains have the most
   * wind and urban areas the least; deserts have the most sun and arctic
   * regions the least.
   */
  lemma TableExtremes(t: Terrain)
    ensures WindPotential(Urban).base <= WindPotential(t).base <= WindPotential(Mountains).base
    ensures SolarPotential(Arctic).base <= SolarPotential(t).base <= SolarPotential(Desert).base
  {
  }

  /** baseAltitudes in estimateAltitude, in metres. */
  function BaseAltitude(t: Terrain): (metres: real)
    ensures 50.0 <= metres <= 2000.0
  {
    match t
    case Mountains => 2000.0
    case Plains => 500.0
    case Desert => 800.0
    case Coastal => 50.0
    case Forest => 600.0
    case Urban => 100.0
    case Suburban => 150.0
    case Tropical => 300.0
    case Arctic => 400.0
    case Temperate => 300.0
  }

  /** mapTerrainType: the Portuguese label of a terrain key, "temperado" by default. */
  function TerrainLabel(key: string): (name: string)
    ensures !IsTerrainKey(key) ==> name == "temperado"
  {
    match Parse(key)
    case Some(Temperate) => "temperado"
    case Some(Coastal) => "costeiro"
    case Some(Mountains) => "montanhas"
    case Some(Plains) => "plan\U{ED}cies"
    case Some(Desert) => "deserto"
    case Some(Arctic) => "\U{E1}rtico"
    case Some(Tropical) => "tropical"
    case Some(Suburban) => "suburbano"
    case Some(Forest) => "floresta"
    case Some(Urban) => "urbano"
    case None => "temperado"
  }

  /** The ten keys get ten different labels. */
  lemma LabelsDistinct(t: Terrain, u: Terrain)
    requires TerrainLabel(Key(t)) == TerrainLabel(Key(u))
    ensures t == u
  {
    ParseKey(t);
    ParseKey(u);
  }

  /** No capitalised string is a key of the tables: keys start in lower case. */
  lemma CapitalizedIsNotKey(s: string)
    ensures !IsTerrainKey(Capitalize(s))
  {
    var k := Capitalize(s);
    assert |k| > 0 ==> !('a' <= k[0] <= 'z');
  }

  /**
   * As written, the analysis panel passes the CAPITALISED terrain key to
   * mapTerrainType, so whatever the terrain the label shown is "temperado".
   */
  function DisplayedLabelAsWritten(key: string): string {
    TerrainLabel(Capitalize(key))
  }

  lemma DisplayedLabelAlwaysDefault(key: string)
    ensures DisplayedLabelAsWritten(key) == "temperado"
  {
    CapitalizedIsNotKey(key);
  }

  /** The label the panel evidently intends: the translation of the key itself. */
  function DisplayedLabel(key: string): string {
    TerrainLabel(key)
  }

  /** Corrected, each of the ten terrains shows its own label. */
  lemma DisplayedLabelDistinguishesTerrains(t: Terrain, u: Terrain)
    requires t != u
    ensures DisplayedLabel(Key(t)) != DisplayedLabel(Key(u))
  {
    if DisplayedLabel(Key(t)) == DisplayedLabel(Key(u)) {
      LabelsDistinct(t, u);
    }
  }
}
