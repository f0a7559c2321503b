/**
 * Consequences for whole responses: results and locations decode element by
 * element, a failure anywhere fails the response, and, since no `Location`
 * written as a JSON object decodes, every response that does decode carries
 * no locations in object form.
 */
module Responses {
  import opened Json
  import opened Serde
  import opened Geocode
  import opened WireKeys

  /** A locations array decodes only when it is empty. */
  lemma LocationsDecodeOnlyWhenEmpty(j: Json)
    ensures DecodeLocations(j).Ok? <==> j == JArray([])
    ensures DecodeLocations(j).Ok? ==> DecodeLocations(j).value == []
  {
    if j.JArray? && |j.items| > 0 {
      LocationNeverDecodes(j.items[0]);
    }
  }

  lemma GeocodeResultHasNoLocations(j: Json)
    ensures DecodeGeocodeResult(j).Ok? ==> DecodeGeocodeResult(j).value.locations == []
  {
    if j.JObject? {
      var d := DecodeFields(j, "GeocodeResult", ResultKeys, GeocodeResultField);
      if d.Ok? {
        LocationsDecodeOnlyWhenEmpty(d.value[1]);
      }
    }
  }

  lemma ReverseGeocodeResultHasNoLocations(j: Json)
    ensures DecodeReverseGeocodeResult(j).Ok? ==> DecodeReverseGeocodeResult(j).value.locations == []
  {
    if j.JObject? {
      var d := DecodeFields(j, "ReverseGeocodeResult", ResultKeys, ReverseGeocodeResultField);
      if d.Ok? {
        LocationsDecodeOnlyWhenEmpty(d.value[1]);
      }
    }
  }

  /** Every forward response that decodes has no location in any of its results. */
  lemma GeocodeResponseHasNoLocations(j: Json)
    ensures DecodeGeocodeResponse(j).Ok? ==>
            forall i :: 0 <= i < |DecodeGeocodeResponse(j).value.results| ==>
              DecodeGeocodeResponse(j).value.results[i].locations == []
  {
    if j.JObject? {
      GeocodeResultsInOrder(j.members);
      if DecodeGeocodeResponse(j).Ok? {
        var items := SoleValue(j.members, "results").value.items;
        forall i | 0 <= i < |items|
          ensures DecodeGeocodeResult(items[i]).Ok? ==> DecodeGeocodeResult(items[i]).value.locations == []
        {
          GeocodeResultHasNoLocations(items[i]);
        }
      }
    }
  }

  /** Every reverse response that decodes has no location in any of its results. */
  lemma ReverseGeocodeResponseHasNoLocations(j: Json)
    ensures DecodeReverseGeocodeResponse(j).Ok? ==>
            forall i :: 0 <= i < |DecodeReverseGeocodeResponse(j).value.results| ==>
              DecodeReverseGeocodeResponse(j).value.results[i].locations == []
  {
    if j.JObject? {
      ReverseGeocodeResultsInOrder(j.members);
      if DecodeReverseGeocodeResponse(j).Ok? {
        var items := SoleValue(j.members, "results").value.items;
        forall i | 0 <= i < |items|
          ensures DecodeReverseGeocodeResult(items[i]).Ok? ==> DecodeReverseGeocodeResult(items[i]).value.locations == []
        {
          ReverseGeocodeResultHasNoLocations(items[i]);
        }
      }
    }
  }

  /** The results of a decoded forward response are its `results` array decoded
      element by element: same length, same order. */
  lemma GeocodeResultsInOrder(members: seq<(string, Json)>)
    ensures DecodeGeocodeResponse(JObject(members)).Ok? ==>
            SoleValue(members, "results").Some? && SoleValue(members, "results").value.JArray? &&
            var items := SoleValue(members, "results").value.items;
            var results := DecodeGeocodeResponse(JObject(members)).value.results;
            |results| == |items| &&
            forall i :: 0 <= i < |items| ==> DecodeGeocodeResult(items[i]) == Ok(results[i])
  {
    GeocodeResponseReadsWireKeys(members);
  }

  /** The results of a decoded reverse response are its `results` array decoded
      element by element: same length, same order. */
  lemma ReverseGeocodeResultsInOrder(members: seq<(string, Json)>)
    ensures DecodeReverseGeocodeResponse(JObject(members)).Ok? ==>
            SoleValue(members, "results").Some? && SoleValue(members, "results").value.JArray? &&
            var items := SoleValue(members, "results").value.items;
            var results := DecodeReverseGeocodeResponse(JObject(members)).value.results;
            |results| == |items| &&
            forall i :: 0 <= i < |items| ==> DecodeReverseGeocodeResult(items[i]) == Ok(results[i])
  {
    ReverseGeocodeResponseReadsWireKeys(members);
  }

  /** One result that fails to decode fails the whole forward response. */
  lemma GeocodeResponseFailsOnBadResult(members: seq<(string, Json)>, k: nat)
    requires SoleValue(members, "results").Some? && SoleValue(members, "results").value.JArray?
    requires k < |SoleValue(members, "results").value.items|
    requires DecodeGeocodeResult(SoleValue(members, "results").value.items[k]).Err?
    ensures DecodeGeocodeResponse(JObject(members)).Err?
  {
    GeocodeResponseReadsWireKeys(members);
  }

  /** One result that fails to decode fails the whole reverse response. */
  lemma ReverseGeocodeResponseFailsOnBadResult(members: seq<(string, Json)>, k: nat)
    requires SoleValue(members, "results").Some? && SoleValue(members, "results").value.JArray?
    requires k < |SoleValue(members, "results").value.items|
    requires DecodeReverseGeocodeResult(SoleValue(members, "results").value.items[k]).Err?
    ensures DecodeReverseGeocodeResponse(JObject(members)).Err?
  {
    ReverseGeocodeResponseReadsWireKeys(members);
  }
}
