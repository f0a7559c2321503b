/**
 * What the derived record decoders read: for each record, a reference
 * reading that looks every field up by its wire key, and the proof that the
 * derived decoder agrees with it. For `Location`, the proof that the repeated
 * key `adminArea4` leaves `admin_area_1` without a value, so that no JSON
 * object decodes as a `Location`.
 */
module WireKeys {
  import opened Json
  import opened Serde
  import opened Geocode

  /* ---------------------------------------------------------------------
   * Reference readings: each field is the sole member carrying its wire
   * key, decoded by the field's decoder.
   * ------------------------------------------------------------------- */

  function InfoByKey(members: seq<(string, Json)>): Option<Info> {
    var status_code := ReadKey(members, "status_code", DecodeU32);
    var messages := ReadKey(members, "messages", DecodeMessages);
    if status_code.Some? && messages.Some? then Some(Info(status_code.value, messages.value))
    else Option.None
  }

  function OptionsByKey(members: seq<(string, Json)>): Option<Options> {
    var max_results := ReadKey(members, "maxResults", DecodeU32);
    var thumb_maps := ReadKey(members, "thumbMaps", DecodeBool);
    var ignore_lat_lng_input := ReadKey(members, "ignoreLatLngInput", DecodeBool);
    if max_results.Some? && thumb_maps.Some? && ignore_lat_lng_input.Some? then
      Some(Options(max_results.value, thumb_maps.value, ignore_lat_lng_input.value))
    else Option.None
  }

  function LatLngByKey(members: seq<(string, Json)>): Option<LatLng> {
    var lat := ReadKey(members, "lat", DecodeF32);
    var lng := ReadKey(members, "lng", DecodeF32);
    if lat.Some? && lng.Some? then Some(LatLng(lat.value, lng.value)) else Option.None
  }

  function ProvidedLocationByKey(members: seq<(string, Json)>): Option<ProvidedLocation> {
    var location := ReadKey(members, "location", DecodeString);
    if location.Some? then Some(ProvidedLocation(location.value)) else Option.None
  }

  function GeocodeResultByKey(members: seq<(string, Json)>): Option<GeocodeResult> {
    var provided_location := ReadKey(members, "providedLocation", DecodeProvidedLocation);
    var locations := ReadKey(members, "locations", DecodeLocations);
    if provided_location.Some? && locations.Some? then
      Some(GeocodeResult(provided_location.value, locations.value))
    else Option.None
  }

  function ReverseGeocodeResultByKey(members: seq<(string, Json)>): Option<ReverseGeocodeResult> {
    var provided_location := ReadKey(members, "providedLocation", DecodeLatLng);
    var locations := ReadKey(members, "locations", DecodeLocations);
    if provided_location.Some? && locations.Some? then
      Some(ReverseGeocodeResult(provided_location.value, locations.value))
    else Option.None
  }

  function GeocodeResponseByKey(members: seq<(string, Json)>): Option<GeocodeResponse> {
    var info := ReadKey(members, "info", DecodeInfo);
    var options := ReadKey(members, "options", DecodeOptions);
    var results := ReadKey(members, "results", DecodeGeocodeResults);
    if info.Some? && options.Some? && results.Some? then
      Some(GeocodeResponse(info.value, options.value, results.value))
    else Option.None
  }

  function ReverseGeocodeResponseByKey(members: seq<(string, Json)>): Option<ReverseGeocodeResponse> {
    var info := ReadKey(members, "info", DecodeInfo);
    var options := ReadKey(members, "options", DecodeOptions);
    var results := ReadKey(members, "results", DecodeReverseGeocodeResults);
    if info.Some? && options.Some? && results.Some? then
      Some(ReverseGeocodeResponse(info.value, options.value, results.value))
    else Option.None
  }

  /* ---------------------------------------------------------------------
   * The derived decoders agree with the reference readings.
   * ------------------------------------------------------------------- */

  lemma OptionsReadsWireKeys(members: seq<(string, Json)>)
    ensures DecodeOptions(JObject(members)).ToOption() == OptionsByKey(members)
  {
    DecodeFieldsByKey(members, "Options", OptionsKeys, OptionsField);
    var r := DecodeFields(JObject(members), "Options", OptionsKeys, OptionsField);
    if r.Ok? {
      assert KeyAccepted(members, OptionsKeys, OptionsField, 0);
      assert OptionsField(0, r.value[0]).None?;
      assert KeyAccepted(members, OptionsKeys, OptionsField, 1);
      assert OptionsField(1, r.value[1]).None?;
      assert KeyAccepted(members, OptionsKeys, OptionsField, 2);
      assert OptionsField(2, r.value[2]).None?;
    }
  }

  lemma InfoReadsWireKeys(members: seq<(string, Json)>)
    ensures DecodeInfo(JObject(members)).ToOption() == InfoByKey(members)
  {
    DecodeFieldsByKey(members, "Info", InfoKeys, InfoField);
    var r := DecodeFields(JObject(members), "Info", InfoKeys, InfoField);
    if r.Ok? {
      assert KeyAccepted(members, InfoKeys, InfoField, 0);
      assert InfoField(0, r.value[0]).None?;
      assert KeyAccepted(members, InfoKeys, InfoField, 1);
      assert InfoField(1, r.value[1]).None?;
    }
  }

  lemma LatLngReadsWireKeys(members: seq<(string, Json)>)
    ensures DecodeLatLng(JObject(members)).ToOption() == LatLngByKey(members)
  {
    DecodeFieldsByKey(members, "LatLng", LatLngKeys, LatLngField);
    var r := DecodeFields(JObject(members), "LatLng", LatLngKeys, LatLngField);
    if r.Ok? {
      assert KeyAccepted(members, LatLngKeys, LatLngField, 0);
      assert LatLngField(0, r.value[0]).None?;
      assert KeyAccepted(members, LatLngKeys, LatLngField, 1);
      assert LatLngField(1, r.value[1]).None?;
    }
  }

  lemma ProvidedLocationReadsWireKeys(members: seq<(string, Json)>)
    ensures DecodeProvidedLocation(JObject(members)).ToOption() == ProvidedLocationByKey(members)
  {
    DecodeFieldsByKey(members, "ProvidedLocation", ProvidedLocationKeys, ProvidedLocationField);
    var r := DecodeFields(JObject(members), "ProvidedLocation", ProvidedLocationKeys, ProvidedLocationField);
    if r.Ok? {
      assert KeyAccepted(members, ProvidedLocationKeys, ProvidedLocationField, 0);
      assert ProvidedLocationField(0, r.value[0]).None?;
    }
  }

  lemma GeocodeResultReadsWireKeys(members: seq<(string, Json)>)
    ensures DecodeGeocodeResult(JObject(members)).ToOption() == GeocodeResultByKey(members)
  {
    DecodeFieldsByKey(members, "GeocodeResult", ResultKeys, GeocodeResultField);
    var r := DecodeFields(JObject(members), "GeocodeResult", ResultKeys, GeocodeResultField);
    if r.Ok? {
      assert KeyAccepted(members, ResultKeys, GeocodeResultField, 0);
      assert GeocodeResultField(0, r.value[0]).None?;
      assert KeyAccepted(members, ResultKeys, GeocodeResultField, 1);
      assert GeocodeResultField(1, r.value[1]).None?;
    }
  }

  lemma ReverseGeocodeResultReadsWireKeys(members: seq<(string, Json)>)
    ensures DecodeReverseGeocodeResult(JObject(members)).ToOption() == ReverseGeocodeResultByKey(members)
  {
    DecodeFieldsByKey(members, "ReverseGeocodeResult", ResultKeys, ReverseGeocodeResultField);
    var r := DecodeFields(JObject(members), "ReverseGeocodeResult", ResultKeys, ReverseGeocodeResultField);
    if r.Ok? {
      assert KeyAccepted(members, ResultKeys, ReverseGeocodeResultField, 0);
      assert ReverseGeocodeResultField(0, r.value[0]).None?;
      assert KeyAccepted(members, ResultKeys, ReverseGeocodeResultField, 1);
      assert ReverseGeocodeResultField(1, r.value[1]).None?;
    }
  }

  lemma GeocodeResponseReadsWireKeys(members: seq<(string, Json)>)
    ensures DecodeGeocodeResponse(JObject(members)).ToOption() == GeocodeResponseByKey(members)
  {
    DecodeFieldsByKey(members, "GeocodeResponse", ResponseKeys, GeocodeResponseField);
    var r := DecodeFields(JObject(members), "GeocodeResponse", ResponseKeys, GeocodeResponseField);
    if r.Ok? {
      assert KeyAccepted(members, ResponseKeys, GeocodeResponseField, 0);
      assert GeocodeResponseField(0, r.value[0]).None?;
      assert KeyAccepted(members, ResponseKeys, GeocodeResponseField, 1);
      assert GeocodeResponseField(1, r.value[1]).None?;
      assert KeyAccepted(members, ResponseKeys, GeocodeResponseField, 2);
      assert GeocodeResponseField(2, r.value[2]).None?;
    }
  }

  lemma ReverseGeocodeResponseReadsWireKeys(members: seq<(string, Json)>)
    ensures DecodeReverseGeocodeResponse(JObject(members)).ToOption() == ReverseGeocodeResponseByKey(members)
  {
    DecodeFieldsByKey(members, "ReverseGeocodeResponse", ResponseKeys, ReverseGeocodeResponseField);
    var r := DecodeFields(JObject(members), "ReverseGeocodeResponse", ResponseKeys, ReverseGeocodeResponseField);
    if r.Ok? {
      assert KeyAccepted(members, ResponseKeys, ReverseGeocodeResponseField, 0);
      assert ReverseGeocodeResponseField(0, r.value[0]).None?;
      assert KeyAccepted(members, ResponseKeys, ReverseGeocodeResponseField, 1);
      assert ReverseGeocodeResponseField(1, r.value[1]).None?;
      assert KeyAccepted(members, ResponseKeys, ReverseGeocodeResponseField, 2);
      assert ReverseGeocodeResponseField(2, r.value[2]).None?;
    }
  }

  /* ---------------------------------------------------------------------
   * The repeated key of `Location`.
   * ------------------------------------------------------------------- */

  /** `admin_area_1` never receives a value, so no JSON object decodes as a `Location`
      (the positional array form is not part of this model). */
  lemma LocationNeverDecodes(j: Json)
    ensures DecodeLocation(j).Err?
  {
    if j.JObject? {
      DecodeFieldsSpec(j.members, "Location", LocationKeys, LocationField);
      NeverDispatched(j.members, LocationKeys, 3, 5);
    }
  }

  /** Hence, vacuously, every successful decode has equal `admin_area_1` and `admin_area_4`. */
  lemma LocationAdminAreasAgree(j: Json)
    ensures DecodeLocation(j).Ok? ==> DecodeLocation(j).value.admin_area_1 == DecodeLocation(j).value.admin_area_4
  {
    LocationNeverDecodes(j);
  }

  /** Every key of the table but the repeated one is declared by no earlier field. */
  lemma LocationKeyFirstDeclared(i: nat)
    requires i < |LocationKeys| && i != 5
    ensures forall k :: 0 <= k < i ==> LocationKeys[k] != LocationKeys[i]
  {
    // `street` and `linkId` have the same length and differ in their first letter.
    assert LocationKeys[0][0] != LocationKeys[12][0];
    // `adminArea6` to `adminArea3` differ only in their tenth letter, the digit.
    assert forall k :: 1 <= k <= 4 ==> LocationKeys[k][9] == "6543"[k - 1];
  }

  /** An object that carries every declared key once, each with a value its field's
      decoder accepts, fails with `admin_area_1` reported missing under the wire key
      `adminArea4`. */
  lemma LocationReportsAdminArea1Missing(members: seq<(string, Json)>)
    requires forall i: nat :: i < |LocationKeys| ==> KeyAccepted(members, LocationKeys, LocationField, i)
    ensures DecodeLocation(JObject(members)) == Err(MissingField("adminArea4"))
  {
    NeverDispatched(members, LocationKeys, 3, 5);
    forall i: nat | i < |LocationKeys| && i != 5
      ensures |Dispatched(members, LocationKeys, i)| == 1
      ensures LocationField(i, Dispatched(members, LocationKeys, i)[0]).None?
    {
      LocationKeyFirstDeclared(i);
      DispatchedByKey(members, LocationKeys, i);
      assert KeyAccepted(members, LocationKeys, LocationField, i);
    }
    DecodeFieldsMissing(members, "Location", LocationKeys, LocationField, 5);
  }

  /** No field of `Location` declares the key `adminArea1`. */
  lemma AdminArea1Undeclared()
    ensures forall i :: 0 <= i < |LocationKeys| ==> LocationKeys[i] != "adminArea1"
  {
    // The `adminArea` keys of the table end in a digit other than 1; the other keys
    // differ from `adminArea1` in length.
    assert forall i :: 1 <= i <= 5 ==> LocationKeys[i][9] == "65434"[i - 1];
  }

  /** A member with key `adminArea1` has no effect on the decode, wherever it stands. */
  lemma LocationIgnoresAdminArea1(front: seq<(string, Json)>, v: Json, back: seq<(string, Json)>)
    ensures DecodeLocation(JObject(front + [("adminArea1", v)] + back)) ==
            DecodeLocation(JObject(front + back))
  {
    AdminArea1Undeclared();
    DecodeFieldsSkipsUnknownKey(front, "adminArea1", v, back, "Location", LocationKeys, LocationField);
  }
}
