/**
 * Concrete response bodies and what the decoders make of them.
 */
module SampleBodies {
  import opened Json
  import opened Serde
  import opened Geocode
  import opened WireKeys

  const Address: string := "1600 Amphitheatre Parkway, Mountain View, CA"

  const SampleInfo: Json := JObject([("status_code", JNumber(Integer(0))), ("messages", JArray([]))])

  const SampleOptions: Json :=
    JObject([("maxResults", JNumber(Integer(-1))), ("thumbMaps", JBool(true)), ("ignoreLatLngInput", JBool(false))])

  const SampleLatLng: Json :=
    JObject([("lat", JNumber(Decimal("37.4224"))), ("lng", JNumber(Decimal("-122.0841")))])

  const SampleProvidedLocation: Json := JObject([("location", JString(Address))])

  const SampleResult: Json :=
    JObject([("providedLocation", SampleProvidedLocation), ("locations", JArray([]))])

  const SampleOptions1: Json :=
    JObject([("maxResults", JNumber(Integer(1))), ("thumbMaps", JBool(true)), ("ignoreLatLngInput", JBool(false))])

  const SampleResponse: Json :=
    JObject([("info", SampleInfo), ("options", SampleOptions1), ("results", JArray([SampleResult]))])

  /** `maxResults` must fit a `u32`. */
  lemma NegativeMaxResultsRejected()
    ensures DecodeOptions(SampleOptions) == Err(InvalidValue(-1, AU32))
  {
  }

  lemma SampleInfoDecodes()
    ensures DecodeInfo(SampleInfo) == Ok(Info(0, []))
  {
    InfoReadsWireKeys(SampleInfo.members);
  }

  lemma SampleProvidedLocationDecodes()
    ensures DecodeProvidedLocation(SampleProvidedLocation) == Ok(ProvidedLocation(Address))
  {
    var m := SampleProvidedLocation.members;
    assert ValuesOf(m[1..], "location") == [];
    ProvidedLocationReadsWireKeys(m);
  }

  lemma SampleResultKeys()
    ensures SoleValue(SampleResult.members, "providedLocation") == Some(SampleProvidedLocation)
    ensures SoleValue(SampleResult.members, "locations") == Some(JArray([]))
  {
    var m := SampleResult.members;
    assert ValuesOf(m[2..], "providedLocation") == [] && ValuesOf(m[2..], "locations") == [];
    assert ValuesOf(m[1..], "providedLocation") == [] && ValuesOf(m[1..], "locations") == [JArray([])];
  }

  lemma SampleResultDecodes()
    ensures DecodeGeocodeResult(SampleResult) == Ok(GeocodeResult(ProvidedLocation(Address), []))
  {
    SampleProvidedLocationDecodes();
    SampleResultKeys();
    assert DecodeLocations(JArray([])) == Ok([]);
    GeocodeResultReadsWireKeys(SampleResult.members);
  }

  lemma SampleOptionsDecodes()
    ensures DecodeOptions(SampleOptions1) == Ok(Options(1, true, false))
  {
  }

  lemma SampleResultsDecode()
    ensures DecodeGeocodeResults(JArray([SampleResult])) == Ok([GeocodeResult(ProvidedLocation(Address), [])])
  {
    SampleResultDecodes();
    var d := DecodeItems([SampleResult], DecodeGeocodeResult);
    assert d.Ok? && |d.value| == 1 && d.value[0] == GeocodeResult(ProvidedLocation(Address), []);
    assert d.value == [GeocodeResult(ProvidedLocation(Address), [])];
    assert DecodeGeocodeResults(JArray([SampleResult])) == d;
  }

  lemma SampleResponseKeys()
    ensures SoleValue(SampleResponse.members, "info") == Some(SampleInfo)
    ensures SoleValue(SampleResponse.members, "options") == Some(SampleOptions1)
    ensures SoleValue(SampleResponse.members, "results") == Some(JArray([SampleResult]))
  {
    var m := SampleResponse.members;
    assert "options"[0] != "results"[0];
    assert ValuesOf(m[3..], "info") == [] && ValuesOf(m[3..], "options") == [] && ValuesOf(m[3..], "results") == [];
    assert m[2..] == [m[2]] + m[3..];
    assert ValuesOf(m[2..], "info") == [] && ValuesOf(m[2..], "options") == [];
    assert ValuesOf(m[2..], "results") == [JArray([SampleResult])];
    assert m[1..] == [m[1]] + m[2..];
    assert ValuesOf(m[1..], "info") == [] && ValuesOf(m[1..], "results") == [JArray([SampleResult])];
    assert ValuesOf(m[1..], "options") == [SampleOptions1];
    assert ValuesOf(m, "options") == [SampleOptions1];
    assert ValuesOf(m, "results") == [JArray([SampleResult])];
  }

  /** A response whose one result has no locations decodes field for field, and the
      provided location is the address verbatim. */
  lemma ResponseWithoutLocationsDecodes()
    ensures DecodeGeocodeResponse(SampleResponse) ==
            Ok(GeocodeResponse(Info(0, []), Options(1, true, false),
                               [GeocodeResult(ProvidedLocation(Address), [])]))
  {
    SampleInfoDecodes();
    SampleOptionsDecodes();
    SampleResultsDecode();
    SampleResponseKeys();
    GeocodeResponseReadsWireKeys(SampleResponse.members);
  }

  lemma SampleLatLngDecodes()
    ensures DecodeLatLng(SampleLatLng) == Ok(LatLng(Decimal("37.4224"), Decimal("-122.0841")))
  {
    LatLngReadsWireKeys(SampleLatLng.members);
  }

  /** A location carrying every declared key once with a well-typed value, plus the
      country under `adminArea1`, as the service sends it; the side-of-street code and
      the display position are left open. */
  function SampleLocationMembers(side: string, position: Json): seq<(string, Json)> {
    [("street", JString("1600 Amphitheatre Pkwy")),
     ("adminArea6", JString("")),
     ("adminArea5", JString("Mountain View")),
     ("adminArea4", JString("Santa Clara")),
     ("adminArea3", JString("CA")),
     ("adminArea1", JString("US")),
     ("type", JString("s")),
     ("dragPoint", JBool(false)),
     ("displayLatLng", position),
     ("sideOfStreet", JString(side)),
     ("geocodeQualityCode", JString("P1AAA")),
     ("geocodeQuality", JString("POINT")),
     ("linkId", JString("0"))]
  }

  lemma SampleLocationNamesDistinct(side: string, position: Json)
    ensures DistinctNames(SampleLocationMembers(side, position))
  {
    var m := SampleLocationMembers(side, position);
    // The five `adminArea` keys differ only in their tenth letter, the digit.
    assert forall a :: 1 <= a <= 5 ==> m[a].0[9] == "65431"[a - 1];
    // `street` and `linkId` have the same length and differ in their first letter.
    assert m[0].0[0] != m[12].0[0];
  }

  /** Every field of the sample location finds its key exactly once; `admin_area_1`
      finds the value of `adminArea4`. */
  lemma SampleLocationSoleValues(side: string, position: Json)
    ensures forall i: nat :: i < |LocationKeys| ==>
              SoleValue(SampleLocationMembers(side, position), LocationKeys[i]) ==
              Some(SampleLocationMembers(side, position)[if i == 5 then 3 else i].1)
  {
    var m := SampleLocationMembers(side, position);
    SampleLocationNamesDistinct(side, position);
    forall i: nat | i < |LocationKeys|
      ensures SoleValue(m, LocationKeys[i]) == Some(m[if i == 5 then 3 else i].1)
    {
      var j := if i == 5 then 3 else i;
      SoleValueOfDistinct(m, j);
      assert LocationKeys[i] == m[j].0;
    }
  }

  /** ... with a value its decoder accepts, when the code and the position are valid. */
  lemma SampleLocationKeysAccepted(side: string, position: Json)
    requires side in SideOfStreetCodes && DecodeLatLng(position).Ok?
    ensures forall i: nat :: i < |LocationKeys| ==>
              KeyAccepted(SampleLocationMembers(side, position), LocationKeys, LocationField, i)
  {
    var m := SampleLocationMembers(side, position);
    SampleLocationSoleValues(side, position);
    forall i: nat | i < |LocationKeys|
      ensures KeyAccepted(m, LocationKeys, LocationField, i)
    {
      var v := m[if i == 5 then 3 else i].1;
      assert SoleValue(m, LocationKeys[i]) == Some(v);
      if i !in {6, 7, 8, 9} {
        assert v.JString?;
      }
    }
  }

  /** With a known side-of-street code and a valid position, the sample location
      fails, reporting `admin_area_1` missing under the wire key `adminArea4`. */
  lemma SampleLocationFails(side: string, position: Json)
    requires side in SideOfStreetCodes && DecodeLatLng(position).Ok?
    ensures DecodeLocation(JObject(SampleLocationMembers(side, position))) == Err(MissingField("adminArea4"))
  {
    SampleLocationKeysAccepted(side, position);
    LocationReportsAdminArea1Missing(SampleLocationMembers(side, position));
  }

  lemma LocationFieldsError(j: Json)
    ensures DecodeFields(j, "Location", LocationKeys, LocationField).Err? ==>
            DecodeLocation(j) == Err(DecodeFields(j, "Location", LocationKeys, LocationField).error)
  {
  }

  /** A location whose first member is an unknown side-of-street code fails with that
      code and the accepted ones, whatever follows it: members are decoded in order. */
  lemma UnknownSideOfStreetReported(side: string, rest: seq<(string, Json)>)
    requires side !in SideOfStreetCodes
    ensures DecodeLocation(JObject([("sideOfStreet", JString(side))] + rest)) ==
            Err(UnknownVariant(side, SideOfStreetCodes))
  {
    var j := JObject([("sideOfStreet", JString(side))] + rest);
    var e := UnknownVariant(side, SideOfStreetCodes);
    LocationKeyFirstDeclared(9);
    FieldIndexFirst(LocationKeys, 9);
    assert j.members[0] == ("sideOfStreet", JString(side));
    assert MemberRejected(j.members, LocationKeys, LocationField, 0, e);
    DecodeFieldsReportsFirstRejected(j.members, "Location", LocationKeys, LocationField, 0, e);
    LocationFieldsError(j);
  }

  /** A forward response with the given parts and one result. */
  function ResponseOf(info: Json, options: Json, result: Json): Json {
    JObject([("info", info), ("options", options), ("results", JArray([result]))])
  }

  /** A result with the given provided location and one location. */
  function ResultOf(provided: Json, location: Json): Json {
    JObject([("providedLocation", provided), ("locations", JArray([location]))])
  }

  lemma SingletonReportsError<T>(x: Json, f: Json -> Result<T>)
    requires f(x).Err?
    ensures DecodeSeq(JArray([x]), f) == Err(f(x).error)
  {
    assert [x][0] == x;
  }

  lemma ResultMembersChecked(provided: Json, location: Json, e: DecodeError)
    requires DecodeProvidedLocation(provided).Ok? && DecodeLocation(location) == Err(e)
    ensures MemberAccepted(ResultOf(provided, location).members, ResultKeys, GeocodeResultField, 0)
    ensures MemberRejected(ResultOf(provided, location).members, ResultKeys, GeocodeResultField, 1, e)
    ensures DistinctNames(ResultOf(provided, location).members[..2])
  {
    SingletonReportsError(location, DecodeLocation);
    FieldIndexFirst(ResultKeys, 0);
    FieldIndexFirst(ResultKeys, 1);
  }

  lemma ResultFieldsError(j: Json)
    ensures DecodeFields(j, "GeocodeResult", ResultKeys, GeocodeResultField).Err? ==>
            DecodeGeocodeResult(j) == Err(DecodeFields(j, "GeocodeResult", ResultKeys, GeocodeResultField).error)
  {
  }

  /** The error of a location is the error of the result holding it. */
  lemma ResultReportsLocationError(provided: Json, location: Json, e: DecodeError)
    requires DecodeProvidedLocation(provided).Ok? && DecodeLocation(location) == Err(e)
    ensures DecodeGeocodeResult(ResultOf(provided, location)) == Err(e)
  {
    var j := ResultOf(provided, location);
    ResultMembersChecked(provided, location, e);
    DecodeFieldsReportsFirstRejected(j.members, "GeocodeResult", ResultKeys, GeocodeResultField, 1, e);
    ResultFieldsError(j);
  }

  lemma ResponseInfoAccepted(info: Json, options: Json, result: Json)
    requires DecodeInfo(info).Ok?
    ensures MemberAccepted(ResponseOf(info, options, result).members, ResponseKeys, GeocodeResponseField, 0)
  {
    FieldIndexFirst(ResponseKeys, 0);
  }

  lemma ResponseOptionsAccepted(info: Json, options: Json, result: Json)
    requires DecodeOptions(options).Ok?
    ensures MemberAccepted(ResponseOf(info, options, result).members, ResponseKeys, GeocodeResponseField, 1)
  {
    FieldIndexFirst(ResponseKeys, 1);
  }

  lemma ResponseResultRejected(info: Json, options: Json, result: Json, e: DecodeError)
    requires DecodeGeocodeResult(result) == Err(e)
    ensures MemberRejected(ResponseOf(info, options, result).members, ResponseKeys, GeocodeResponseField, 2, e)
  {
    SingletonReportsError(result, DecodeGeocodeResult);
    assert "options"[0] != "results"[0];
    FieldIndexFirst(ResponseKeys, 2);
  }

  lemma ResponseNamesDistinct(info: Json, options: Json, result: Json)
    ensures DistinctNames(ResponseOf(info, options, result).members)
  {
    assert "options"[0] != "results"[0];
  }

  lemma ResponseFieldsError(j: Json)
    ensures DecodeFields(j, "GeocodeResponse", ResponseKeys, GeocodeResponseField).Err? ==>
            DecodeGeocodeResponse(j) == Err(DecodeFields(j, "GeocodeResponse", ResponseKeys, GeocodeResponseField).error)
  {
  }

  /** The error of a result is the error of the response holding it. */
  lemma ResponseReportsResultError(info: Json, options: Json, result: Json, e: DecodeError)
    requires DecodeInfo(info).Ok? && DecodeOptions(options).Ok? && DecodeGeocodeResult(result) == Err(e)
    ensures DecodeGeocodeResponse(ResponseOf(info, options, result)) == Err(e)
  {
    var j := ResponseOf(info, options, result);
    ResponseInfoAccepted(info, options, result);
    ResponseOptionsAccepted(info, options, result);
    ResponseResultRejected(info, options, result, e);
    ResponseNamesDistinct(info, options, result);
    assert j.members[..3] == j.members;
    DecodeFieldsReportsFirstRejected(j.members, "GeocodeResponse", ResponseKeys, GeocodeResponseField, 2, e);
    ResponseFieldsError(j);
  }

  /** The sample response around one location reports that location's error. */
  lemma ResponseReportsLocationError(location: Json, e: DecodeError)
    requires DecodeLocation(location) == Err(e)
    ensures DecodeGeocodeResponse(ResponseOf(SampleInfo, SampleOptions1, ResultOf(SampleProvidedLocation, location))) == Err(e)
  {
    SampleProvidedLocationDecodes();
    ResultReportsLocationError(SampleProvidedLocation, location, e);
    SampleInfoDecodes();
    SampleOptionsDecodes();
    ResponseReportsResultError(SampleInfo, SampleOptions1, ResultOf(SampleProvidedLocation, location), e);
  }

  /** So a response carrying the service's well-formed location fails as a whole. */
  lemma ResponseWithLocationFails(side: string)
    requires side in SideOfStreetCodes
    ensures DecodeGeocodeResponse(ResponseOf(SampleInfo, SampleOptions1,
              ResultOf(SampleProvidedLocation, JObject(SampleLocationMembers(side, SampleLatLng))))) ==
            Err(MissingField("adminArea4"))
  {
    SampleLatLngDecodes();
    SampleLocationFails(side, SampleLatLng);
    ResponseReportsLocationError(JObject(SampleLocationMembers(side, SampleLatLng)), MissingField("adminArea4"));
  }

  /** And a bad side-of-street code deep inside the response is the error reported. */
  lemma ResponseWithUnknownSideOfStreet(side: string, rest: seq<(string, Json)>)
    requires side !in SideOfStreetCodes
    ensures DecodeGeocodeResponse(ResponseOf(SampleInfo, SampleOptions1,
              ResultOf(SampleProvidedLocation, JObject([("sideOfStreet", JString(side))] + rest)))) ==
            Err(UnknownVariant(side, SideOfStreetCodes))
  {
    UnknownSideOfStreetReported(side, rest);
    ResponseReportsLocationError(JObject([("sideOfStreet", JString(side))] + rest), UnknownVariant(side, SideOfStreetCodes));
  }
}
