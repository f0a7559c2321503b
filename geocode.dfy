/**
 * The typed response tree of the geocoding client and its decoding from a
 * parsed JSON body: two hand-written decoders for single-letter codes and
 * the derived decoders of the records, each driven by its table of wire keys.
 */
module Geocode {
  import opened Json
  import opened Serde

  /* ---------------------------------------------------------------------
   * The response tree. Field names are those of the Rust structs; the wire
   * keys they are read from are given by the key tables further down.
   * ------------------------------------------------------------------- */

  datatype Info = Info(status_code: u32, messages: seq<string>)

  datatype Options = Options(max_results: u32, thumb_maps: bool, ignore_lat_lng_input: bool)

  datatype LatLng = LatLng(lat: F32, lng: F32)

  datatype ProvidedLocation = ProvidedLocation(location: string)

  datatype LocationType = Stop | Via

  datatype SideOfStreet = Left | Right | Mixed | None

  datatype Location = Location(
    street: string,
    admin_area_6: string,
    admin_area_5: string,
    admin_area_4: string,
    admin_area_3: string,
    admin_area_1: string,
    location_type: LocationType,
    drag_point: bool,
    display_lat_lng: LatLng,
    side_of_street: SideOfStreet,
    geocode_quality_code: string,
    geocode_quality: string,
    link_id: string)

  datatype ReverseGeocodeResult = ReverseGeocodeResult(provided_location: LatLng, locations: seq<Location>)

  datatype GeocodeResult = GeocodeResult(provided_location: ProvidedLocation, locations: seq<Location>)

  datatype ReverseGeocodeResponse =
    ReverseGeocodeResponse(info: Info, options: Options, results: seq<ReverseGeocodeResult>)

  datatype GeocodeResponse = GeocodeResponse(info: Info, options: Options, results: seq<GeocodeResult>)

  /* ---------------------------------------------------------------------
   * Single-letter codes.
   * ------------------------------------------------------------------- */

  /** The codes a location type is decoded from, in the order the error lists them. */
  const LocationTypeCodes: seq<string> := ["s", "v"]

  /** The codes a side of street is decoded from, in the order the error lists them. */
  const SideOfStreetCodes: seq<string> := ["r", "l", "m", "n"]

  /** A location type is a string holding one of its codes; any other string is
      an unknown variant, never a default. */
  function DecodeLocationType(j: Json): (r: Result<LocationType>)
    ensures r == Ok(Stop) <==> j == JString("s")
    ensures r == Ok(Via) <==> j == JString("v")
    ensures j.JString? && j.s !in LocationTypeCodes ==> r == Err(UnknownVariant(j.s, LocationTypeCodes))
    ensures !j.JString? ==> r == Err(InvalidType(AString))
  {
    var s :- DecodeString(j);
    if s == "s" then Ok(Stop)
    else if s == "v" then Ok(Via)
    else Err(UnknownVariant(s, LocationTypeCodes))
  }

  /** A side of street is a string holding one of its codes; any other string is
      an unknown variant, never a default. */
  function DecodeSideOfStreet(j: Json): (r: Result<SideOfStreet>)
    ensures r == Ok(Right) <==> j == JString("r")
    ensures r == Ok(Left) <==> j == JString("l")
    ensures r == Ok(Mixed) <==> j == JString("m")
    ensures r == Ok(SideOfStreet.None) <==> j == JString("n")
    ensures j.JString? && j.s !in SideOfStreetCodes ==> r == Err(UnknownVariant(j.s, SideOfStreetCodes))
    ensures !j.JString? ==> r == Err(InvalidType(AString))
  {
    var s :- DecodeString(j);
    if s == "r" then Ok(Right)
    else if s == "l" then Ok(Left)
    else if s == "m" then Ok(Mixed)
    else if s == "n" then Ok(SideOfStreet.None)
    else Err(UnknownVariant(s, SideOfStreetCodes))
  }

  /** The one code each location type is decoded from. */
  function LocationTypeCode(t: LocationType): (c: string)
    ensures c in LocationTypeCodes
    ensures DecodeLocationType(JString(c)) == Ok(t)
  {
    match t
    case Stop => "s"
    case Via => "v"
  }

  /** The one code each side of street is decoded from. */
  function SideOfStreetCode(s: SideOfStreet): (c: string)
    ensures c in SideOfStreetCodes
    ensures DecodeSideOfStreet(JString(c)) == Ok(s)
  {
    match s
    case Right => "r"
    case Left => "l"
    case Mixed => "m"
    case None => "n"
  }

  /** Every accepted code is the code of the variant it decodes to, so distinct
      codes give distinct variants. */
  lemma LocationTypeCodesExact(c: string)
    ensures DecodeLocationType(JString(c)).Ok? <==> c in LocationTypeCodes
    ensures DecodeLocationType(JString(c)).Ok? ==> LocationTypeCode(DecodeLocationType(JString(c)).value) == c
  {
  }

  lemma SideOfStreetCodesExact(c: string)
    ensures DecodeSideOfStreet(JString(c)).Ok? <==> c in SideOfStreetCodes
    ensures DecodeSideOfStreet(JString(c)).Ok? ==> SideOfStreetCode(DecodeSideOfStreet(JString(c)).value) == c
  {
  }

  /* ---------------------------------------------------------------------
   * Records. Each has its table of wire keys, one per field in declaration
   * order, and the decoder of each field.
   * ------------------------------------------------------------------- */

  const InfoKeys: seq<string> := ["status_code", "messages"]
  const OptionsKeys: seq<string> := ["maxResults", "thumbMaps", "ignoreLatLngInput"]
  const LatLngKeys: seq<string> := ["lat", "lng"]
  const ProvidedLocationKeys: seq<string> := ["location"]
  /** The key of `admin_area_1` (field 5) repeats the key of `admin_area_4` (field 3). */
  const LocationKeys: seq<string> :=
    ["street", "adminArea6", "adminArea5", "adminArea4", "adminArea3", "adminArea4",
     "type", "dragPoint", "displayLatLng", "sideOfStreet", "geocodeQualityCode",
     "geocodeQuality", "linkId"]
  const ResultKeys: seq<string> := ["providedLocation", "locations"]
  const ResponseKeys: seq<string> := ["info", "options", "results"]

  function DecodeMessages(j: Json): Result<seq<string>> {
    DecodeSeq(j, DecodeString)
  }

  function InfoField(i: nat, v: Json): Option<DecodeError> {
    if i == 0 then DecodeU32(v).ErrorOf() else DecodeMessages(v).ErrorOf()
  }

  function DecodeInfo(j: Json): (r: Result<Info>)
    ensures !j.JObject? ==> r == Err(InvalidType(AStruct("Info")))
  {
    var v :- DecodeFields(j, "Info", InfoKeys, InfoField);
    var status_code :- DecodeU32(v[0]);
    var messages :- DecodeMessages(v[1]);
    Ok(Info(status_code, messages))
  }

  function OptionsField(i: nat, v: Json): Option<DecodeError> {
    if i == 0 then DecodeU32(v).ErrorOf() else DecodeBool(v).ErrorOf()
  }

  function DecodeOptions(j: Json): (r: Result<Options>)
    ensures !j.JObject? ==> r == Err(InvalidType(AStruct("Options")))
  {
    var v :- DecodeFields(j, "Options", OptionsKeys, OptionsField);
    var max_results :- DecodeU32(v[0]);
    var thumb_maps :- DecodeBool(v[1]);
    var ignore_lat_lng_input :- DecodeBool(v[2]);
    Ok(Options(max_results, thumb_maps, ignore_lat_lng_input))
  }

  function LatLngField(i: nat, v: Json): Option<DecodeError> {
    DecodeF32(v).ErrorOf()
  }

  function DecodeLatLng(j: Json): (r: Result<LatLng>)
    ensures !j.JObject? ==> r == Err(InvalidType(AStruct("LatLng")))
  {
    var v :- DecodeFields(j, "LatLng", LatLngKeys, LatLngField);
    var lat :- DecodeF32(v[0]);
    var lng :- DecodeF32(v[1]);
    Ok(LatLng(lat, lng))
  }

  function ProvidedLocationField(i: nat, v: Json): Option<DecodeError> {
    DecodeString(v).ErrorOf()
  }

  function DecodeProvidedLocation(j: Json): (r: Result<ProvidedLocation>)
    ensures !j.JObject? ==> r == Err(InvalidType(AStruct("ProvidedLocation")))
  {
    var v :- DecodeFields(j, "ProvidedLocation", ProvidedLocationKeys, ProvidedLocationField);
    var location :- DecodeString(v[0]);
    Ok(ProvidedLocation(location))
  }

  function LocationField(i: nat, v: Json): Option<DecodeError> {
    match i
    case 6 => DecodeLocationType(v).ErrorOf()
    case 7 => DecodeBool(v).ErrorOf()
    case 8 => DecodeLatLng(v).ErrorOf()
    case 9 => DecodeSideOfStreet(v).ErrorOf()
    case _ => DecodeString(v).ErrorOf()
  }

  function DecodeLocation(j: Json): (r: Result<Location>)
    ensures !j.JObject? ==> r == Err(InvalidType(AStruct("Location")))
  {
    var v :- DecodeFields(j, "Location", LocationKeys, LocationField);
    LocationOf(v)
  }

  /** The field values decoded in declaration order; `v[i]` is the value of field `i`. */
  function LocationOf(v: seq<Json>): Result<Location>
    requires |v| == |LocationKeys|
  {
    var street :- DecodeString(v[0]);
    var admin_area_6 :- DecodeString(v[1]);
    var admin_area_5 :- DecodeString(v[2]);
    var admin_area_4 :- DecodeString(v[3]);
    var admin_area_3 :- DecodeString(v[4]);
    var admin_area_1 :- DecodeString(v[5]);
    var location_type :- DecodeLocationType(v[6]);
    var drag_point :- DecodeBool(v[7]);
    var display_lat_lng :- DecodeLatLng(v[8]);
    var side_of_street :- DecodeSideOfStreet(v[9]);
    var geocode_quality_code :- DecodeString(v[10]);
    var geocode_quality :- DecodeString(v[11]);
    var link_id :- DecodeString(v[12]);
    Ok(Location(street, admin_area_6, admin_area_5, admin_area_4, admin_area_3, admin_area_1,
                location_type, drag_point, display_lat_lng, side_of_street,
                geocode_quality_code, geocode_quality, link_id))
  }

  function DecodeLocations(j: Json): Result<seq<Location>> {
    DecodeSeq(j, DecodeLocation)
  }

  function ReverseGeocodeResultField(i: nat, v: Json): Option<DecodeError> {
    if i == 0 then DecodeLatLng(v).ErrorOf() else DecodeLocations(v).ErrorOf()
  }

  function DecodeReverseGeocodeResult(j: Json): (r: Result<ReverseGeocodeResult>)
    ensures !j.JObject? ==> r == Err(InvalidType(AStruct("ReverseGeocodeResult")))
  {
    var v :- DecodeFields(j, "ReverseGeocodeResult", ResultKeys, ReverseGeocodeResultField);
    var provided_location :- DecodeLatLng(v[0]);
    var locations :- DecodeLocations(v[1]);
    Ok(ReverseGeocodeResult(provided_location, locations))
  }

  function GeocodeResultField(i: nat, v: Json): Option<DecodeError> {
    if i == 0 then DecodeProvidedLocation(v).ErrorOf() else DecodeLocations(v).ErrorOf()
  }

  function DecodeGeocodeResult(j: Json): (r: Result<GeocodeResult>)
    ensures !j.JObject? ==> r == Err(InvalidType(AStruct("GeocodeResult")))
  {
    var v :- DecodeFields(j, "GeocodeResult", ResultKeys, GeocodeResultField);
    var provided_location :- DecodeProvidedLocation(v[0]);
    var locations :- DecodeLocations(v[1]);
    Ok(GeocodeResult(provided_location, locations))
  }

  function DecodeReverseGeocodeResults(j: Json): Result<seq<ReverseGeocodeResult>> {
    DecodeSeq(j, DecodeReverseGeocodeResult)
  }

  function DecodeGeocodeResults(j: Json): Result<seq<GeocodeResult>> {
    DecodeSeq(j, DecodeGeocodeResult)
  }

  function ReverseGeocodeResponseField(i: nat, v: Json): Option<DecodeError> {
    match i
    case 0 => DecodeInfo(v).ErrorOf()
    case 1 => DecodeOptions(v).ErrorOf()
    case _ => DecodeReverseGeocodeResults(v).ErrorOf()
  }

  function DecodeReverseGeocodeResponse(j: Json): (r: Result<ReverseGeocodeResponse>)
    ensures !j.JObject? ==> r == Err(InvalidType(AStruct("ReverseGeocodeResponse")))
  {
    var v :- DecodeFields(j, "ReverseGeocodeResponse", ResponseKeys, ReverseGeocodeResponseField);
    var info :- DecodeInfo(v[0]);
    var options :- DecodeOptions(v[1]);
    var results :- DecodeReverseGeocodeResults(v[2]);
    Ok(ReverseGeocodeResponse(info, options, results))
  }

  function GeocodeResponseField(i: nat, v: Json): Option<DecodeError> {
    match i
    case 0 => DecodeInfo(v).ErrorOf()
    case 1 => DecodeOptions(v).ErrorOf()
    case _ => DecodeGeocodeResults(v).ErrorOf()
  }

  function DecodeGeocodeResponse(j: Json): (r: Result<GeocodeResponse>)
    ensures !j.JObject? ==> r == Err(InvalidType(AStruct("GeocodeResponse")))
  {
    var v :- DecodeFields(j, "GeocodeResponse", ResponseKeys, GeocodeResponseField);
    var info :- DecodeInfo(v[0]);
    var options :- DecodeOptions(v[1]);
    var results :- DecodeGeocodeResults(v[2]);
    Ok(GeocodeResponse(info, options, results))
  }
}
