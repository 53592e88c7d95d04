/**
 * The map of the location analyzer (components/leaflet-map.tsx): a click
 * is reverse-geocoded, the answer's address tags give a terrain key and its
 * display name a place name, and the location goes through the map's own
 * selection handler, which moves the marker and forwards it unchanged.
 */
module LeafletMap {
  import opened Wrappers
  import opened Text
  import opened TerrainCatalog

  /** The address tags of a reverse-geocoding answer that the map reads. */
  datatype Address = Address(natural: Option<string>, landuse: Option<string>, place: Option<string>)

  /** A reverse-geocoding answer: the display name and the address, either possibly absent. */
  datatype ReverseGeocode = ReverseGeocode(displayName: Option<string>, address: Option<Address>)

  /** The outcome of the request: an answer, or a failure (network error, unreadable body). */
  datatype Lookup = Answered(answer: ReverseGeocode) | Failed

  /** A location handed to the selection handler. */
  datatype Location = Location(lat: real, lng: real, name: string, key: string)

  /** `address.tag === value`, with an absent tag never equal. */
  predicate TagIs(tag: Option<string>, value: string) {
    tag == Some(value)
  }

  /**
   * The terrain key of an address: the first matching tag in the order
   * natural (beach, coastline; mountain, peak), landuse (forest), place
   * (city; suburb); temperate without an address or a match.
   */
  function TerrainFromAddress(address: Option<Address>): (key: string)
    ensures key in {"coastal", "mountains", "forest", "urban", "suburban", "temperate"}
    ensures address.None? ==> key == "temperate"
    ensures key == "coastal" <==>
      address.Some? && (TagIs(address.value.natural, "beach") || TagIs(address.value.natural, "coastline"))
  {
    var terrainType := "temperate";
    match address
    case None => terrainType
    case Some(a) =>
      if TagIs(a.natural, "beach") || TagIs(a.natural, "coastline") then "coastal"
      else if TagIs(a.natural, "mountain") || TagIs(a.natural, "peak") then "mountains"
      else if TagIs(a.landuse, "forest") then "forest"
      else if TagIs(a.place, "city") then "urban"
      else if TagIs(a.place, "suburb") then "suburban"
      else terrainType
  }

  /** Every key the map produces has an entry in the analyzer's tables. */
  lemma TerrainFromAddressIsKey(address: Option<Address>)
    ensures IsTerrainKey(TerrainFromAddress(address))
  {
  }

  /**
   * The order of the tests decides between tags: a coast wins over any
   * other tag, a forest over a city, and a place tag counts only when the
   * natural and landuse tags match nothing.
   */
  lemma TerrainFromAddressPriority(natural: Option<string>, landuse: Option<string>, place: Option<string>)
    ensures TagIs(natural, "coastline") ==> TerrainFromAddress(Some(Address(natural, landuse, place))) == "coastal"
    ensures TagIs(landuse, "forest") && TagIs(place, "city") && natural.None?
      ==> TerrainFromAddress(Some(Address(natural, landuse, place))) == "forest"
    ensures TagIs(place, "suburb") && natural.None? && landuse.None?
      ==> TerrainFromAddress(Some(Address(natural, landuse, place))) == "suburban"
    ensures natural.None? && landuse.None? && place.None?
      ==> TerrainFromAddress(Some(Address(natural, landuse, place))) == "temperate"
  {
  }

  /** "Location at <lat>, <lng>" with four decimals each. */
  function FallbackName(lat: real, lng: real): (name: string)
    ensures |name| > 12 && name[..12] == "Location at "
  {
    "Location at " + ToFixed(lat, 4) + ", " + ToFixed(lng, 4)
  }

  /** `data.display_name || fallback`: an absent or empty display name is replaced. */
  function PlaceName(displayName: Option<string>, lat: real, lng: real): (name: string)
    ensures displayName.Some? && displayName.value != "" ==> name == displayName.value
    ensures displayName.None? || displayName.value == "" ==> name == FallbackName(lat, lng)
    ensures name != ""
  {
    if displayName.Some? && displayName.value != "" then displayName.value else FallbackName(lat, lng)
  }

  /**
   * The location a click yields: the answer's terrain and name, or, when
   * the lookup fails, the fallback name and temperate.
   */
  function ClickLocation(lat: real, lng: real, lookup: Lookup): (loc: Location)
    ensures loc.lat == lat && loc.lng == lng
    ensures IsTerrainKey(loc.key)
    ensures lookup.Failed? ==> loc.name == FallbackName(lat, lng) && loc.key == "temperate"
  {
    match lookup
    case Answered(data) =>
      Location(lat, lng, PlaceName(data.displayName, lat, lng), TerrainFromAddress(data.address))
    case Failed =>
      Location(lat, lng, FallbackName(lat, lng), "temperate")
  }

  /** A failed lookup and an empty answer select the same location. */
  lemma FailureLikeEmptyAnswer(lat: real, lng: real)
    ensures ClickLocation(lat, lng, Failed) == ClickLocation(lat, lng, Answered(ReverseGeocode(None, None)))
  {
  }

  class Map {
    /** The marker's position, none before the first selection. */
    var selectedPosition: Option<(real, real)>

    constructor ()
      ensures selectedPosition == None
    {
      selectedPosition := None;
    }

    /** handleLocationSelect: moves the marker and forwards the location unchanged. */
    method HandleLocationSelect(loc: Location) returns (forwarded: Location)
      modifies this
      ensures selectedPosition == Some((loc.lat, loc.lng))
      ensures forwarded == loc
    {
      selectedPosition := Some((loc.lat, loc.lng));
      forwarded := loc;
    }

    /** handleMapClick: the location of the click, through the selection handler. */
    method HandleMapClick(lat: real, lng: real, lookup: Lookup) returns (forwarded: Location)
      modifies this
      ensures forwarded == ClickLocation(lat, lng, lookup)
      ensures selectedPosition == Some((lat, lng))
    {
      var terrainType := "temperate";
      var name: string;
      match lookup {
        case Answered(data) =>
          if data.address.Some? {
            var a := data.address.value;
            if TagIs(a.natural, "beach") || TagIs(a.natural, "coastline") {
              terrainType := "coastal";
            } else if TagIs(a.natural, "mountain") || TagIs(a.natural, "peak") {
              terrainType := "mountains";
            } else if TagIs(a.landuse, "forest") {
              terrainType := "forest";
            } else if TagIs(a.place, "city") {
              terrainType := "urban";
            } else if TagIs(a.place, "suburb") {
              terrainType := "suburban";
            }
          }
          name := PlaceName(data.displayName, lat, lng);
        case Failed =>
          name := FallbackName(lat, lng);
      }
      forwarded := HandleLocationSelect(Location(lat, lng, name, terrainType));
    }
  }
}
