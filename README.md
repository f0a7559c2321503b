# Geocoding response decoding, modelled in Dafny

This project models how the MapQuest geocoding client in `src/geocode.rs`
turns a JSON response body into its typed response tree, and proves what it
does. The client defines:

- two hand-written decoders for single-letter codes: `LocationType` and
  `SideOfStreet`;
- nine records decoded by serde's derived `Deserialize`, each with its own
  table of wire keys: `Info`, `Options`, `LatLng`, `ProvidedLocation`,
  `Location`, `GeocodeResult`, `ReverseGeocodeResult`, `GeocodeResponse`
  and `ReverseGeocodeResponse`.

The model starts from a JSON value that has already been parsed (`Json`).
Object members keep their order and any repeated keys.

The files:

- `json.dfy`: the parsed JSON value. A number is an integer, or a literal
  that is kept as written.
- `serde.dfy`: the serde behaviour the decoders depend on:
  - the primitive decoders (`String`, `bool`, `u32`, `f32`) and `Vec<T>`;
  - the field dispatch of a derived struct decoder. Members are read in
    order. Each key goes to the first field that declares it. A key no
    field declares is skipped. A key seen twice gives a duplicate-field
    error. A value is decoded as soon as its key is met. After the last
    member, the first field left without a value is reported missing,
    under its wire key.
- `geocode.dfy`: the response tree, the two code decoders, the key tables
  and the record decoders.
- `wire_keys.dfy`: a reference reading for each record that looks each field
  up by its wire key. It proves that each derived decoder agrees with its
  reference reading. It also proves the consequences of the repeated
  `adminArea4` key in `Location`.
- `responses.dfy`: consequences for whole responses, results and locations.
- `sample_bodies.dfy`: concrete response bodies and what the decoders make
  of them.

## The repeated `adminArea4` key

In `Location`, `admin_area_4` is renamed to `"adminArea4"` at
`src/geocode.rs:124`. `admin_area_1` is renamed to `"adminArea4"` again at
`src/geocode.rs:130`, where `"adminArea1"` was evidently meant. The derived
field visitor matches a key against its arms in declaration order. So an
`"adminArea4"` member always goes to `admin_area_4`, and `admin_area_1`
never receives a value. The model keeps this behaviour as written:

- no location written as a JSON object decodes as a `Location`
  (`WireKeys.LocationNeverDecodes`);
- a location object that carries every key, `adminArea1` included, fails
  with `admin_area_1` reported missing under the key `adminArea4`;
- a member keyed `adminArea1` has no effect on the decode;
- a locations array whose locations are JSON objects therefore decodes only
  when it is empty.

All of this concerns locations in object form, the only form the model
decodes. serde's derived decoder also accepts a struct written as a JSON
array of its field values in declaration order; there `admin_area_1` is filled
from the sixth element, and the repeated key plays no part. That form is not
modelled (see "## Left out").

For objects, the property "every successful decode has `admin_area_1 ==
admin_area_4`" holds, but only vacuously (`WireKeys.LocationAdminAreasAgree`).

The source itself shows the intent: the field is documented as the country
name (`src/geocode.rs:129`), and its siblings `admin_area_6` to
`admin_area_3` are read from `adminArea6` to `adminArea3`, so `admin_area_1`
was meant to be read from `adminArea1`. A well-formed envelope holding one
result with one location, in object form as the service sends it, is
therefore expected to decode field for field. The code as written does not do
that. The model follows the code, and `SampleBodies.ResponseWithLocationFails`
shows such an envelope failing.

## Model

| member | source | states |
|---|---|---|
| Serde.DecodeString | src/geocode.rs:80 | a string decoder accepts exactly JSON strings and returns the string verbatim; anything else is an invalid type |
| Serde.DecodeBool | src/geocode.rs:36-39 | a `bool` accepts exactly JSON booleans; anything else is an invalid type |
| Serde.DecodeU32 | src/geocode.rs:27 | a `u32` accepts exactly the integers 0 ..= 2^32-1; another integer is an invalid value carrying it; a non-integer is an invalid type |
| Serde.DecodeF32 | src/geocode.rs:43-46 | an `f32` accepts any JSON number and keeps it verbatim, with no range check; a non-number is an invalid type |
| Serde.DecodeItems | src/geocode.rs:29 | a `Vec` decodes iff every element decodes; the result has the same length and order as the input, elementwise; on failure the error is that of the first failing element |
| Serde.DecodeSeq | src/geocode.rs:54 | a non-array is an invalid type (sequence); an array decodes element by element, and an empty array gives an empty sequence |
| Serde.FieldIndex | src/geocode.rs:124-131 | a key is dispatched to the first field declaring it, and to none if no field declares it |
| Serde.Collect | src/geocode.rs:113-159 | the derived decoder's pass over an object's members, in order: each key goes to the first field declaring it, an undeclared key is skipped, a second member for a filled field is a duplicate-field error, and a value is decoded when its key is met; its own contract gives one slot per field on success, and `Serde.CollectSpec` proves that it succeeds exactly when each field receives at most one member its decoder accepts, leaving each field with that member's value |
| Serde.Filled | src/geocode.rs:113-159 | after the last member, the struct succeeds iff every field has a value; otherwise the first empty field in declaration order is reported missing under its wire key |
| Serde.DecodeFields | src/geocode.rs:113-159 | a derived struct decoder rejects a non-object as an invalid type naming the struct; on success it yields one value per declared field |
| Serde.CollectSpec | src/geocode.rs:113-159 | the pass over the members succeeds exactly when each field receives at most one member and its decoder accepts it; each field then holds the value it received |
| Serde.DecodeFieldsSpec | src/geocode.rs:113-159 | a derived struct decoder succeeds iff each field receives exactly one member whose value its decoder accepts; field `i` then holds that value |
| Serde.DecodeFieldsMissing | src/geocode.rs:113-159 | when every field but `m` is properly present and `m` received nothing, the decoder reports `m` missing under its wire key |
| Serde.NeverDispatched | src/geocode.rs:124-131 | a field whose key an earlier field already declares never receives a member |
| Serde.DispatchedByKey | src/geocode.rs:113-159 | a field whose key no earlier field declares receives exactly the members that carry its key, in order |
| Serde.CollectSkipsUnknownKey | src/geocode.rs:113-159 | inserting a member whose key no field declares anywhere in the object does not change the pass over the members |
| Serde.DecodeFieldsSkipsUnknownKey | src/geocode.rs:113-159 | a member whose key no field declares does not change the decode, wherever it stands |
| Serde.ValuesOfAbsent | src/geocode.rs:113-159 | a key that no member carries has no values |
| Serde.SoleValueOfDistinct | src/geocode.rs:113-159 | in an object without repeated keys, each member is the sole one carrying its key |
| Serde.FieldIndexFirst | src/geocode.rs:113-159 | a member whose key no earlier field declares is dispatched to the field declaring that key |
| Serde.CollectReportsFirstRejected | src/geocode.rs:113-159 | with no repeated keys, the pass fails with the error of the first member whose field's decoder rejects it |
| Serde.DecodeFieldsReportsFirstRejected | src/geocode.rs:113-159 | in an object without repeated keys, the first member rejected by its field's decoder decides the error of the whole struct |
| Serde.DecodeFieldsByKey | src/geocode.rs:7-67 | with distinct wire keys, a derived decoder succeeds iff each key occurs exactly once with a value its field accepts; each field then holds the sole value carrying its key |
| Geocode.DecodeLocationType | src/geocode.rs:75-87 | exactly `"s"` decodes to `Stop` and exactly `"v"` to `Via`; any other string is an unknown variant carrying it and `["s", "v"]`; a non-string is an invalid type |
| Geocode.DecodeSideOfStreet | src/geocode.rs:97-111 | exactly `"r"`, `"l"`, `"m"`, `"n"` decode to `Right`, `Left`, `Mixed`, `None`; any other string is an unknown variant carrying it and `["r", "l", "m", "n"]`; a non-string is an invalid type |
| Geocode.LocationTypeCode | src/geocode.rs:69-87 | each location type has an accepted code, and decoding that code gives the variant back |
| Geocode.SideOfStreetCode | src/geocode.rs:89-111 | each side of street has an accepted code, and decoding that code gives the variant back |
| Geocode.LocationTypeCodesExact | src/geocode.rs:81-84 | a code decodes iff it is in the list; a decoded code is the code of its variant, so distinct codes give distinct variants |
| Geocode.SideOfStreetCodesExact | src/geocode.rs:103-108 | a code decodes iff it is in the list; a decoded code is the code of its variant, so distinct codes give distinct variants |
| Geocode.DecodeInfo | src/geocode.rs:23-30 | a non-object is an invalid type naming `Info` |
| Geocode.DecodeOptions | src/geocode.rs:32-40 | a non-object is an invalid type naming `Options` |
| Geocode.DecodeLatLng | src/geocode.rs:42-46 | a non-object is an invalid type naming `LatLng` |
| Geocode.DecodeProvidedLocation | src/geocode.rs:64-67 | a non-object is an invalid type naming `ProvidedLocation` |
| Geocode.DecodeLocation | src/geocode.rs:113-159 | a non-object is an invalid type naming `Location` |
| Geocode.DecodeGeocodeResult | src/geocode.rs:57-62 | a non-object is an invalid type naming `GeocodeResult` |
| Geocode.DecodeReverseGeocodeResult | src/geocode.rs:48-55 | a non-object is an invalid type naming `ReverseGeocodeResult` |
| Geocode.DecodeGeocodeResponse | src/geocode.rs:15-21 | a non-object is an invalid type naming `GeocodeResponse` |
| Geocode.DecodeReverseGeocodeResponse | src/geocode.rs:7-13 | a non-object is an invalid type naming `ReverseGeocodeResponse` |
| WireKeys.InfoReadsWireKeys | src/geocode.rs:23-30 | `Info` decodes exactly when the unrenamed keys `status_code` (a `u32`) and `messages` (strings) each occur once and their values decode, and then from those values |
| WireKeys.OptionsReadsWireKeys | src/geocode.rs:32-40 | `Options` reads `max_results`, `thumb_maps` and `ignore_lat_lng_input` from `maxResults`, `thumbMaps` and `ignoreLatLngInput`, and nothing else decides the decode |
| WireKeys.LatLngReadsWireKeys | src/geocode.rs:42-46 | `LatLng` reads `lat` and `lng` from the keys of the same names |
| WireKeys.ProvidedLocationReadsWireKeys | src/geocode.rs:64-67 | `ProvidedLocation` reads `location` from the key `location` |
| WireKeys.GeocodeResultReadsWireKeys | src/geocode.rs:57-62 | `GeocodeResult` reads `provided_location` from `providedLocation` and `locations` from `locations` |
| WireKeys.ReverseGeocodeResultReadsWireKeys | src/geocode.rs:48-55 | `ReverseGeocodeResult` reads a `LatLng` from `providedLocation` and `locations` from `locations` |
| WireKeys.GeocodeResponseReadsWireKeys | src/geocode.rs:15-21 | `GeocodeResponse` reads `info`, `options` and `results` from the keys of the same names |
| WireKeys.ReverseGeocodeResponseReadsWireKeys | src/geocode.rs:7-13 | `ReverseGeocodeResponse` reads `info`, `options` and `results` from the keys of the same names |
| WireKeys.LocationNeverDecodes | src/geocode.rs:124-131 | because `admin_area_1` repeats the key of `admin_area_4`, no JSON object decodes as a `Location` (a non-object is rejected too, since the array form is not modelled) |
| WireKeys.LocationAdminAreasAgree | src/geocode.rs:124-131 | every successful `Location` decode of a JSON object has `admin_area_1 == admin_area_4` (vacuously) |
| WireKeys.LocationKeyFirstDeclared | src/geocode.rs:113-159 | every key of the `Location` table except the repeated one is declared by no earlier field |
| WireKeys.LocationReportsAdminArea1Missing | src/geocode.rs:124-131 | an object carrying every declared key once with well-typed values fails with `admin_area_1` missing, reported under `adminArea4` |
| WireKeys.AdminArea1Undeclared | src/geocode.rs:129-131 | no field of `Location` declares the key `adminArea1` |
| WireKeys.LocationIgnoresAdminArea1 | src/geocode.rs:129-131 | a member keyed `adminArea1` does not change the `Location` decode, wherever it stands |
| Responses.LocationsDecodeOnlyWhenEmpty | src/geocode.rs:54 | a locations array of JSON-object locations decodes iff it is empty, and then to the empty sequence |
| Responses.GeocodeResultHasNoLocations | src/geocode.rs:57-62 | every decoded forward result, with its locations in object form, has no locations |
| Responses.ReverseGeocodeResultHasNoLocations | src/geocode.rs:48-55 | every decoded reverse result, with its locations in object form, has no locations |
| Responses.GeocodeResponseHasNoLocations | src/geocode.rs:15-21 | no result of a decoded forward response has a location in object form |
| Responses.ReverseGeocodeResponseHasNoLocations | src/geocode.rs:7-13 | no result of a decoded reverse response has a location in object form |
| Responses.GeocodeResultsInOrder | src/geocode.rs:20 | the results of a decoded forward response are its sole `results` array decoded element by element: same length, same order |
| Responses.ReverseGeocodeResultsInOrder | src/geocode.rs:12 | the results of a decoded reverse response are its sole `results` array decoded element by element: same length, same order |
| Responses.GeocodeResponseFailsOnBadResult | src/geocode.rs:20 | one result that fails to decode fails the whole forward response |
| Responses.ReverseGeocodeResponseFailsOnBadResult | src/geocode.rs:12 | one result that fails to decode fails the whole reverse response |
| SampleBodies.NegativeMaxResultsRejected | src/geocode.rs:34-35 | `maxResults: -1` is rejected as an invalid `u32` value carrying -1 |
| SampleBodies.SampleInfoDecodes | src/geocode.rs:23-30 | a concrete `info` object decodes to status 0 with no messages |
| SampleBodies.SampleProvidedLocationDecodes | src/geocode.rs:64-67 | a concrete provided location decodes to the address verbatim |
| SampleBodies.SampleResultDecodes | src/geocode.rs:57-62 | a concrete result with no locations decodes field for field |
| SampleBodies.SampleOptionsDecodes | src/geocode.rs:32-40 | a concrete `options` object decodes field for field |
| SampleBodies.SampleResultsDecode | src/geocode.rs:20 | a one-element results array decodes to the one result |
| SampleBodies.ResponseWithoutLocationsDecodes | src/geocode.rs:15-21 | a concrete forward response whose result has no locations decodes field for field |
| SampleBodies.SampleLatLngDecodes | src/geocode.rs:42-46 | a concrete position decodes with its two numbers kept verbatim |
| SampleBodies.SampleLocationNamesDistinct | src/geocode.rs:113-159 | the sample location repeats no key |
| SampleBodies.SampleLocationSoleValues | src/geocode.rs:113-159 | each declared key occurs exactly once in the sample location, and the key of `admin_area_1` finds the `adminArea4` value |
| SampleBodies.SampleLocationKeysAccepted | src/geocode.rs:113-159 | with a known side-of-street code and a valid position, each field accepts the value under its key |
| SampleBodies.SampleLocationFails | src/geocode.rs:124-131 | the sample location, a well-formed one from the service, fails with `admin_area_1` reported missing under `adminArea4` |
| SampleBodies.UnknownSideOfStreetReported | src/geocode.rs:108 | a location whose first member is an unknown side-of-street code fails with that code and the accepted list, whatever follows |
| SampleBodies.ResultReportsLocationError | src/geocode.rs:61 | a result with a valid provided location and one location reports that location's error |
| SampleBodies.ResponseReportsResultError | src/geocode.rs:20 | a response with valid `info` and `options` and one result reports that result's error |
| SampleBodies.ResponseReportsLocationError | src/geocode.rs:15-21 | the sample envelope around one location reports that location's error |
| SampleBodies.ResponseWithLocationFails | src/geocode.rs:124-131 | an envelope holding one result with the service's well-formed location fails as a whole, with `admin_area_1` missing |
| SampleBodies.ResponseWithUnknownSideOfStreet | src/geocode.rs:108 | an unknown side-of-street code inside a response's one location is the error of the whole response |

## Left out

- `Client`, `Client::new`, `reverse_geocode` and `geocode` (`src/geocode.rs:161-204`) are left out. They are HTTP requests through `reqwest`, a foreign library, so no decoder in the model is tied to an endpoint.
- `geocode` is declared to return a `ReverseGeocodeResponse` (`src/geocode.rs:196`), so a forward response would be decoded with the reverse schema. The model does not cover it, because it lives in that I/O code. Both response decoders are modelled.
- The `"{:},{}"` formatting of the coordinates (`src/geocode.rs:188`) is left out. It is floating-point text formatting.
- `src/error.rs` is not part of this model. Its `Error` only wraps foreign `reqwest` and `serde_json` errors. Decode failures are the model's own `DecodeError`.
- JSON text tokenizing and number parsing belong to `serde_json` and are not modelled. The model starts from a parsed value, and a non-integral number is an opaque literal.
- Serde.DecodeF32: a number is kept as parsed; single-precision rounding is not modelled.
- Serde.DecodeU32: a number that the parser reads as a float, however integral, counts as a non-integer here; the parser's choice is not modelled.
- Serde.DecodeFields, Geocode.DecodeInfo, Geocode.DecodeOptions, Geocode.DecodeLatLng, Geocode.DecodeProvidedLocation, Geocode.DecodeLocation, Geocode.DecodeGeocodeResult, Geocode.DecodeReverseGeocodeResult, Geocode.DecodeGeocodeResponse, Geocode.DecodeReverseGeocodeResponse: serde's derived decoder also accepts a struct written as a JSON array of its field values in declaration order. That form is not modelled, so their `InvalidType` clause for a non-object is wrong for a JSON array of the right values.
- WireKeys.LocationNeverDecodes, WireKeys.LocationAdminAreasAgree, Responses.LocationsDecodeOnlyWhenEmpty and the `Responses.*HasNoLocations` lemmas hold for locations in object form only. In the array form, `admin_area_1` is filled from the sixth element, so such a `Location` decodes, with `admin_area_1` and `admin_area_4` free to differ, and a response holding it decodes too.
- The `Serialize` derive on `LatLng` and the `Debug` derives are left out. They do not take part in decoding.
- Geocode.DecodeInfo, Geocode.DecodeOptions, Geocode.DecodeLatLng, Geocode.DecodeProvidedLocation, Geocode.DecodeLocation and the result and response decoders: each one's own contract states only the non-object case. What each one reads is stated by the `WireKeys` lemmas about it, and for `Location` by `WireKeys.LocationNeverDecodes`.
