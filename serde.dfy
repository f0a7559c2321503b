/**
 * The parts of serde's behaviour that the derived and hand-written
 * `Deserialize` impls of the geocoding response model rely on: decoding of
 * primitive values, of sequences, and the field dispatch of a derived struct
 * decoder driven by its table of wire keys.
 */
module Serde {
  import opened Json

  datatype Option<T> = None | Some(value: T)

  /** What a decoder expected when it met a value of the wrong JSON type. */
  datatype Expected = AString | ABoolean | AU32 | AF32 | ASequence | AStruct(name: string)

  /** The decode failures the model distinguishes (serde's `de::Error` constructors). */
  datatype DecodeError =
    | InvalidType(expected: Expected)
    | InvalidValue(found: int, expected: Expected)
    | UnknownVariant(variant: string, accepted: seq<string>)
    | MissingField(field: string)
    | DuplicateField(field: string)

  datatype Result<T> = Ok(value: T) | Err(error: DecodeError) {
    predicate IsFailure() { Err? }

    function PropagateFailure<U>(): Result<U>
      requires Err?
    {
      Err(error)
    }

    function Extract(): T
      requires Ok?
    {
      value
    }

    function ToOption(): Option<T> {
      match this
      case Ok(v) => Some(v)
      case Err(_) => None
    }

    /** The error a failed decode reports, if any. */
    function ErrorOf(): Option<DecodeError> {
      match this
      case Ok(_) => None
      case Err(e) => Some(e)
    }
  }

  const U32_MAX: int := 0xFFFF_FFFF

  newtype u32 = x: int | 0 <= x <= U32_MAX

  /** An `f32` is kept as the JSON number it was decoded from; single-precision
      rounding is not modelled. */
  type F32 = Number

  function DecodeString(j: Json): (r: Result<string>)
    ensures r.Ok? <==> j.JString?
    ensures r.Ok? ==> j == JString(r.value)
    ensures r.Err? ==> r.error == InvalidType(AString)
  {
    match j
    case JString(s) => Ok(s)
    case _ => Err(InvalidType(AString))
  }

  function DecodeBool(j: Json): (r: Result<bool>)
    ensures r.Ok? <==> j.JBool?
    ensures r.Ok? ==> j == JBool(r.value)
    ensures r.Err? ==> r.error == InvalidType(ABoolean)
  {
    match j
    case JBool(b) => Ok(b)
    case _ => Err(InvalidType(ABoolean))
  }

  /** A `u32` accepts exactly the integers 0 ..= 2^32 - 1; another integer is an
      invalid value, a fractional number or a non-number an invalid type. */
  function DecodeU32(j: Json): (r: Result<u32>)
    ensures r.Ok? <==> j.JNumber? && j.n.Integer? && 0 <= j.n.i <= U32_MAX
    ensures r.Ok? ==> j == JNumber(Integer(r.value as int))
    ensures j.JNumber? && j.n.Integer? && !(0 <= j.n.i <= U32_MAX) ==> r == Err(InvalidValue(j.n.i, AU32))
    ensures !(j.JNumber? && j.n.Integer?) ==> r == Err(InvalidType(AU32))
  {
    match j
    case JNumber(Integer(i)) =>
      if 0 <= i <= U32_MAX then Ok(i as u32) else Err(InvalidValue(i, AU32))
    case _ => Err(InvalidType(AU32))
  }

  /** An `f32` accepts any JSON number, integral or not, and no range check is made. */
  function DecodeF32(j: Json): (r: Result<F32>)
    ensures r.Ok? <==> j.JNumber?
    ensures r.Ok? ==> j == JNumber(r.value)
    ensures r.Err? ==> r.error == InvalidType(AF32)
  {
    match j
    case JNumber(n) => Ok(n)
    case _ => Err(InvalidType(AF32))
  }

  /** A `Vec<T>`: the elements are decoded one after the other, the first failure
      is the failure of the whole sequence. */
  function DecodeItems<T>(items: seq<Json>, f: Json -> Result<T>): (r: Result<seq<T>>)
    ensures r.Ok? <==> forall i :: 0 <= i < |items| ==> f(items[i]).Ok?
    ensures r.Ok? ==> |r.value| == |items| && forall i :: 0 <= i < |items| ==> r.value[i] == f(items[i]).value
    ensures r.Err? ==> exists i :: 0 <= i < |items| && f(items[i]) == Err(r.error) &&
                                   forall k :: 0 <= k < i ==> f(items[k]).Ok?
    decreases |items|
  {
    if |items| == 0 then Ok([])
    else
      var x :- f(items[0]);
      var xs :- DecodeItems(items[1..], f);
      assert forall i :: 1 <= i < |items| ==> items[1..][i - 1] == items[i];
      Ok([x] + xs)
  }

  function DecodeSeq<T>(j: Json, f: Json -> Result<T>): (r: Result<seq<T>>)
    ensures !j.JArray? ==> r == Err(InvalidType(ASequence))
    ensures j.JArray? ==> r == DecodeItems(j.items, f)
  {
    match j
    case JArray(items) => DecodeItems(items, f)
    case _ => Err(InvalidType(ASequence))
  }

  /* ---------------------------------------------------------------------
   * Derived struct decoding.
   *
   * A derived decoder is driven by the struct's table of wire keys, one per
   * field in declaration order. It reads the object's members in order; the
   * key of each member is matched against the table from the first field on,
   * so a key goes to the FIRST field that declares it. A member whose key no
   * field declares is skipped. A member for a field already seen fails with
   * a duplicate-field error; otherwise its value is decoded at once with the
   * field's decoder, whose failure fails the struct. After the last member,
   * the first field (in declaration order) that received no value fails the
   * struct with a missing-field error naming its wire key.
   * ------------------------------------------------------------------- */

  /** The field a member with key `k` is dispatched to: the first one declaring `k`. */
  function FieldIndex(keys: seq<string>, k: string): (r: Option<nat>)
    ensures r.Some? ==> r.value < |keys| && keys[r.value] == k &&
                        forall i :: 0 <= i < r.value ==> keys[i] != k
    ensures r.None? ==> forall i :: 0 <= i < |keys| ==> keys[i] != k
    decreases |keys|
  {
    if |keys| == 0 then None
    else if keys[0] == k then Some(0)
    else match FieldIndex(keys[1..], k)
      case None => None
      case Some(i) => Some(i + 1)
  }

  /** One pass over the members; `slots` holds the value each field received so far.
      `check(i, v)` is the error field `i`'s decoder reports for `v`, if any. */
  function Collect(members: seq<(string, Json)>, keys: seq<string>,
                   check: (nat, Json) -> Option<DecodeError>,
                   slots: seq<Option<Json>>): (r: Result<seq<Option<Json>>>)
    requires |slots| == |keys|
    ensures r.Ok? ==> |r.value| == |keys|
    decreases |members|
  {
    if |members| == 0 then Ok(slots)
    else
      var (k, v) := members[0];
      match FieldIndex(keys, k)
      case None => Collect(members[1..], keys, check, slots)
      case Some(f) =>
        if slots[f].Some? then Err(DuplicateField(keys[f]))
        else match check(f, v)
          case Some(e) => Err(e)
          case None => Collect(members[1..], keys, check, slots[f := Some(v)])
  }

  /** The values of all fields, or a missing-field error for the first empty one. */
  function Filled(slots: seq<Option<Json>>, keys: seq<string>): (r: Result<seq<Json>>)
    requires |slots| == |keys|
    ensures r.Ok? <==> forall i :: 0 <= i < |slots| ==> slots[i].Some?
    ensures r.Ok? ==> |r.value| == |slots| && forall i :: 0 <= i < |slots| ==> slots[i] == Some(r.value[i])
    ensures r.Err? ==> exists m :: 0 <= m < |slots| && slots[m].None? && r.error == MissingField(keys[m]) &&
                                   forall i :: 0 <= i < m ==> slots[i].Some?
    decreases |slots|
  {
    if |slots| == 0 then Ok([])
    else match slots[0]
      case None => Err(MissingField(keys[0]))
      case Some(x) =>
        var rest :- Filled(slots[1..], keys[1..]);
        assert forall i :: 1 <= i < |slots| ==> slots[1..][i - 1] == slots[i];
        Ok([x] + rest)
  }

  function NoValues(n: nat): (s: seq<Option<Json>>)
    ensures |s| == n && forall i :: 0 <= i < n ==> s[i].None?
  {
    seq(n, _ => None)
  }

  /** The raw values of a struct's fields, in declaration order. Each accepted
      value has passed its field's decoder. */
  function DecodeFields(j: Json, name: string, keys: seq<string>,
                        check: (nat, Json) -> Option<DecodeError>): (r: Result<seq<Json>>)
    ensures !j.JObject? ==> r == Err(InvalidType(AStruct(name)))
    ensures r.Ok? ==> |r.value| == |keys|
  {
    match j
    case JObject(members) =>
      var slots :- Collect(members, keys, check, NoValues(|keys|));
      Filled(slots, keys)
    case _ => Err(InvalidType(AStruct(name)))
  }

  /* ---------------------------------------------------------------------
   * The meaning of derived struct decoding.
   * ------------------------------------------------------------------- */

  /** The values, in order, of the members whose key is dispatched to field `i`. */
  function Dispatched(members: seq<(string, Json)>, keys: seq<string>, i: nat): seq<Json>
    decreases |members|
  {
    if |members| == 0 then []
    else (if FieldIndex(keys, members[0].0) == Some(i) then [members[0].1] else [])
         + Dispatched(members[1..], keys, i)
  }

  /** The values, in order, of the members whose key is `k`. */
  function ValuesOf(members: seq<(string, Json)>, k: string): seq<Json>
    decreases |members|
  {
    if |members| == 0 then []
    else (if members[0].0 == k then [members[0].1] else []) + ValuesOf(members[1..], k)
  }

  /** The value of the one member with key `k`, if there is exactly one. */
  function SoleValue(members: seq<(string, Json)>, k: string): Option<Json> {
    var vs := ValuesOf(members, k);
    if |vs| == 1 then Some(vs[0]) else None
  }

  /** Reading one field by its wire key: the sole member with that key, decoded. */
  function ReadKey<T>(members: seq<(string, Json)>, k: string, decode: Json -> Result<T>): Option<T> {
    match SoleValue(members, k)
    case None => None
    case Some(v) => decode(v).ToOption()
  }

  /** Every field has received exactly one value, and its decoder accepts it. */
  ghost predicate FieldsPresent(members: seq<(string, Json)>, keys: seq<string>,
                                check: (nat, Json) -> Option<DecodeError>)
  {
    forall i: nat :: i < |keys| ==>
      |Dispatched(members, keys, i)| == 1 && check(i, Dispatched(members, keys, i)[0]).None?
  }

  ghost predicate SlotAccepts(members: seq<(string, Json)>, keys: seq<string>,
                              check: (nat, Json) -> Option<DecodeError>,
                              slots: seq<Option<Json>>, i: nat)
    requires i < |slots|
  {
    var d := Dispatched(members, keys, i);
    if slots[i].Some? then |d| == 0
    else |d| <= 1 && (|d| == 1 ==> check(i, d[0]).None?)
  }

  ghost function SlotAfter(members: seq<(string, Json)>, keys: seq<string>,
                           slots: seq<Option<Json>>, i: nat): Option<Json>
    requires i < |slots|
  {
    var d := Dispatched(members, keys, i);
    if slots[i].Some? then slots[i] else if |d| == 1 then Some(d[0]) else None
  }

  /** A member whose key no field declares leaves every field's account unchanged. */
  lemma SlotSkip(members: seq<(string, Json)>, keys: seq<string>,
                 check: (nat, Json) -> Option<DecodeError>, slots: seq<Option<Json>>, i: nat)
    requires |members| > 0 && FieldIndex(keys, members[0].0).None? && i < |slots|
    ensures SlotAccepts(members, keys, check, slots, i) == SlotAccepts(members[1..], keys, check, slots, i)
    ensures SlotAfter(members, keys, slots, i) == SlotAfter(members[1..], keys, slots, i)
  {
    assert Dispatched(members, keys, i) == Dispatched(members[1..], keys, i);
  }

  /** A member accepted into field `f` moves one value from the members to the slots. */
  lemma SlotStep(members: seq<(string, Json)>, keys: seq<string>,
                 check: (nat, Json) -> Option<DecodeError>, slots: seq<Option<Json>>, f: nat, i: nat)
    requires |members| > 0 && FieldIndex(keys, members[0].0) == Some(f)
    requires f < |slots| && slots[f].None? && check(f, members[0].1).None? && i < |slots|
    ensures SlotAccepts(members, keys, check, slots, i) ==
            SlotAccepts(members[1..], keys, check, slots[f := Some(members[0].1)], i)
    ensures SlotAccepts(members, keys, check, slots, i) ==>
            SlotAfter(members, keys, slots, i) == SlotAfter(members[1..], keys, slots[f := Some(members[0].1)], i)
  {
    if i == f {
      assert Dispatched(members, keys, i) == [members[0].1] + Dispatched(members[1..], keys, i);
    } else {
      assert Dispatched(members, keys, i) == Dispatched(members[1..], keys, i);
    }
  }

  /** A member for field `f` that `f` cannot accept (a duplicate, or a value its
      decoder rejects) breaks `f`'s account. */
  lemma SlotRejects(members: seq<(string, Json)>, keys: seq<string>,
                    check: (nat, Json) -> Option<DecodeError>, slots: seq<Option<Json>>, f: nat)
    requires |members| > 0 && FieldIndex(keys, members[0].0) == Some(f) && f < |slots|
    requires slots[f].Some? || check(f, members[0].1).Some?
    ensures !SlotAccepts(members, keys, check, slots, f)
  {
    assert Dispatched(members, keys, f) == [members[0].1] + Dispatched(members[1..], keys, f);
  }

  /** One pass over the members succeeds exactly when every field's account is
      acceptable, and then leaves each field with the value it received. */
  lemma {:induction false} CollectSpec(members: seq<(string, Json)>, keys: seq<string>,
                                       check: (nat, Json) -> Option<DecodeError>,
                                       slots: seq<Option<Json>>)
    requires |slots| == |keys|
    ensures Collect(members, keys, check, slots).Ok? <==>
            forall i: nat :: i < |keys| ==> SlotAccepts(members, keys, check, slots, i)
    ensures Collect(members, keys, check, slots).Ok? ==>
            forall i: nat :: i < |keys| ==>
              Collect(members, keys, check, slots).value[i] == SlotAfter(members, keys, slots, i)
    decreases |members|
  {
    if |members| > 0 {
      var v := members[0].1;
      match FieldIndex(keys, members[0].0)
      case None =>
        CollectSpec(members[1..], keys, check, slots);
        forall i: nat | i < |keys|
          ensures SlotAccepts(members, keys, check, slots, i) == SlotAccepts(members[1..], keys, check, slots, i)
          ensures SlotAfter(members, keys, slots, i) == SlotAfter(members[1..], keys, slots, i)
        {
          SlotSkip(members, keys, check, slots, i);
        }
      case Some(f) =>
        if slots[f].Some? || check(f, v).Some? {
          SlotRejects(members, keys, check, slots, f);
        } else {
          var next := slots[f := Some(v)];
          CollectSpec(members[1..], keys, check, next);
          forall i: nat | i < |keys|
            ensures SlotAccepts(members, keys, check, slots, i) == SlotAccepts(members[1..], keys, check, next, i)
            ensures SlotAccepts(members, keys, check, slots, i) ==>
                    SlotAfter(members, keys, slots, i) == SlotAfter(members[1..], keys, next, i)
          {
            SlotStep(members, keys, check, slots, f, i);
          }
        }
    }
  }

  /** A derived struct decoder succeeds exactly when every field has received one
      value its decoder accepts, and then each field holds that value. */
  lemma DecodeFieldsSpec(members: seq<(string, Json)>, name: string, keys: seq<string>,
                         check: (nat, Json) -> Option<DecodeError>)
    ensures DecodeFields(JObject(members), name, keys, check).Ok? <==> FieldsPresent(members, keys, check)
    ensures DecodeFields(JObject(members), name, keys, check).Ok? ==>
            forall i: nat :: i < |keys| ==>
              DecodeFields(JObject(members), name, keys, check).value[i] == Dispatched(members, keys, i)[0]
  {
    var none := NoValues(|keys|);
    CollectSpec(members, keys, check, none);
    assert forall i: nat :: i < |keys| ==>
      ((SlotAccepts(members, keys, check, none, i) && SlotAfter(members, keys, none, i).Some?) <==>
       (|Dispatched(members, keys, i)| == 1 && check(i, Dispatched(members, keys, i)[0]).None?));
  }

  /** When every field but `m` is properly present and `m` received nothing, the
      derived decoder reports `m` missing under its wire key. */
  lemma DecodeFieldsMissing(members: seq<(string, Json)>, name: string, keys: seq<string>,
                            check: (nat, Json) -> Option<DecodeError>, m: nat)
    requires m < |keys| && Dispatched(members, keys, m) == []
    requires forall i: nat :: i < |keys| && i != m ==>
               |Dispatched(members, keys, i)| == 1 && check(i, Dispatched(members, keys, i)[0]).None?
    ensures DecodeFields(JObject(members), name, keys, check) == Err(MissingField(keys[m]))
  {
    var none := NoValues(|keys|);
    CollectSpec(members, keys, check, none);
    assert forall i: nat :: i < |keys| ==> SlotAccepts(members, keys, check, none, i);
    var c := Collect(members, keys, check, none);
    assert c.value[m].None?;
    assert forall i: nat :: i < |keys| && i != m ==> c.value[i].Some?;
  }

  /** A key already declared by an earlier field never reaches the later one. */
  lemma {:induction false} NeverDispatched(members: seq<(string, Json)>, keys: seq<string>, earlier: nat, i: nat)
    requires earlier < i < |keys| && keys[earlier] == keys[i]
    ensures Dispatched(members, keys, i) == []
    decreases |members|
  {
    if |members| > 0 {
      NeverDispatched(members[1..], keys, earlier, i);
    }
  }

  /** A field whose key no earlier field declares receives exactly the members
      carrying its key. */
  lemma {:induction false} DispatchedByKey(members: seq<(string, Json)>, keys: seq<string>, i: nat)
    requires i < |keys| && forall k :: 0 <= k < i ==> keys[k] != keys[i]
    ensures Dispatched(members, keys, i) == ValuesOf(members, keys[i])
    decreases |members|
  {
    if |members| > 0 {
      DispatchedByKey(members[1..], keys, i);
    }
  }

  /** A member whose key no field declares does not affect the decode, wherever it stands. */
  lemma {:induction false} CollectSkipsUnknownKey(front: seq<(string, Json)>, k: string, v: Json,
                                                  back: seq<(string, Json)>, keys: seq<string>,
                                                  check: (nat, Json) -> Option<DecodeError>,
                                                  slots: seq<Option<Json>>)
    requires |slots| == |keys| && forall i :: 0 <= i < |keys| ==> keys[i] != k
    ensures Collect(front + [(k, v)] + back, keys, check, slots) == Collect(front + back, keys, check, slots)
    decreases |front|
  {
    var with := front + [(k, v)] + back;
    if |front| == 0 {
      assert with[0] == (k, v) && with[1..] == back;
      assert front + back == back;
    } else {
      assert with[0] == front[0] && with[1..] == front[1..] + [(k, v)] + back;
      assert (front + back)[0] == front[0] && (front + back)[1..] == front[1..] + back;
      match FieldIndex(keys, front[0].0)
      case None =>
        CollectSkipsUnknownKey(front[1..], k, v, back, keys, check, slots);
      case Some(f) =>
        if slots[f].None? && check(f, front[0].1).None? {
          CollectSkipsUnknownKey(front[1..], k, v, back, keys, check, slots[f := Some(front[0].1)]);
        }
    }
  }

  lemma DecodeFieldsSkipsUnknownKey(front: seq<(string, Json)>, k: string, v: Json,
                                    back: seq<(string, Json)>, name: string, keys: seq<string>,
                                    check: (nat, Json) -> Option<DecodeError>)
    requires forall i :: 0 <= i < |keys| ==> keys[i] != k
    ensures DecodeFields(JObject(front + [(k, v)] + back), name, keys, check) ==
            DecodeFields(JObject(front + back), name, keys, check)
  {
    CollectSkipsUnknownKey(front, k, v, back, keys, check, NoValues(|keys|));
  }

  /** The key of field `i` occurs exactly once, with a value field `i`'s decoder accepts. */
  ghost predicate KeyAccepted(members: seq<(string, Json)>, keys: seq<string>,
                              check: (nat, Json) -> Option<DecodeError>, i: nat)
    requires i < |keys|
  {
    SoleValue(members, keys[i]).Some? && check(i, SoleValue(members, keys[i]).value).None?
  }

  /** No key is declared by two fields. */
  ghost predicate DistinctKeys(keys: seq<string>) {
    forall i, k :: 0 <= k < i < |keys| ==> keys[k] != keys[i]
  }

  /** No two members of an object share a key. */
  ghost predicate DistinctNames(members: seq<(string, Json)>) {
    forall a, b :: 0 <= a < b < |members| ==> members[a].0 != members[b].0
  }

  lemma {:induction false} ValuesOfAbsent(members: seq<(string, Json)>, k: string)
    requires forall i :: 0 <= i < |members| ==> members[i].0 != k
    ensures ValuesOf(members, k) == []
    decreases |members|
  {
    if |members| > 0 {
      ValuesOfAbsent(members[1..], k);
    }
  }

  /** In an object without repeated keys, each member is the sole one carrying its key. */
  lemma {:induction false} SoleValueOfDistinct(members: seq<(string, Json)>, j: nat)
    requires j < |members| && DistinctNames(members)
    ensures SoleValue(members, members[j].0) == Some(members[j].1)
    decreases |members|
  {
    if j == 0 {
      ValuesOfAbsent(members[1..], members[0].0);
    } else {
      SoleValueOfDistinct(members[1..], j - 1);
    }
  }

  /** Member `q` is dispatched to a field whose decoder accepts it, or to no field. */
  predicate MemberAccepted(members: seq<(string, Json)>, keys: seq<string>,
                           check: (nat, Json) -> Option<DecodeError>, q: nat)
    requires q < |members|
  {
    match FieldIndex(keys, members[q].0)
    case None => true
    case Some(f) => check(f, members[q].1).None?
  }

  /** Member `p` is dispatched to a field whose decoder rejects it with `e`. */
  predicate MemberRejected(members: seq<(string, Json)>, keys: seq<string>,
                           check: (nat, Json) -> Option<DecodeError>, p: nat, e: DecodeError)
    requires p < |members|
  {
    match FieldIndex(keys, members[p].0)
    case None => false
    case Some(f) => check(f, members[p].1) == Some(e)
  }

  lemma {:induction false} CollectReportsFirstRejected(members: seq<(string, Json)>, keys: seq<string>,
                                                       check: (nat, Json) -> Option<DecodeError>,
                                                       slots: seq<Option<Json>>, p: nat, e: DecodeError)
    requires |slots| == |keys| && p < |members| && DistinctNames(members[..p + 1])
    requires forall q :: 0 <= q <= p ==> match FieldIndex(keys, members[q].0)
                                         case None => true
                                         case Some(f) => slots[f].None?
    requires forall q :: 0 <= q < p ==> MemberAccepted(members, keys, check, q)
    requires MemberRejected(members, keys, check, p, e)
    ensures Collect(members, keys, check, slots) == Err(e)
    decreases p
  {
    if p > 0 {
      var rest := members[1..];
      forall q | 0 <= q < p - 1
        ensures MemberAccepted(rest, keys, check, q)
      {
        assert rest[q] == members[q + 1];
        assert MemberAccepted(members, keys, check, q + 1);
      }
      assert rest[p - 1] == members[p];
      assert MemberRejected(rest, keys, check, p - 1, e);
      assert rest[..p] == members[..p + 1][1..];
      match FieldIndex(keys, members[0].0)
      case None =>
        assert MemberAccepted(members, keys, check, 0);
        CollectReportsFirstRejected(rest, keys, check, slots, p - 1, e);
      case Some(f0) =>
        assert MemberAccepted(members, keys, check, 0);
        var next := slots[f0 := Some(members[0].1)];
        forall q | 0 <= q < p
          ensures match FieldIndex(keys, rest[q].0)
                  case None => true
                  case Some(f) => next[f].None?
        {
          assert members[..p + 1][0] == members[0] && members[..p + 1][q + 1] == members[q + 1];
        }
        CollectReportsFirstRejected(rest, keys, check, next, p - 1, e);
    }
  }

  /** In an object without repeated keys, the first member that its field's decoder
      rejects decides the error: members are decoded in the order they appear. */
  lemma DecodeFieldsReportsFirstRejected(members: seq<(string, Json)>, name: string, keys: seq<string>,
                                         check: (nat, Json) -> Option<DecodeError>, p: nat, e: DecodeError)
    requires p < |members| && DistinctNames(members[..p + 1])
    requires forall q :: 0 <= q < p ==> MemberAccepted(members, keys, check, q)
    requires MemberRejected(members, keys, check, p, e)
    ensures DecodeFields(JObject(members), name, keys, check) == Err(e)
  {
    CollectReportsFirstRejected(members, keys, check, NoValues(|keys|), p, e);
  }

  /** A member carrying a key no earlier field declares is dispatched to the field declaring it. */
  lemma FieldIndexFirst(keys: seq<string>, i: nat)
    requires i < |keys| && forall k :: 0 <= k < i ==> keys[k] != keys[i]
    ensures FieldIndex(keys, keys[i]) == Some(i)
  {
  }

  /** With distinct keys, a derived struct decoder reads each field from the sole
      member carrying that field's key: it succeeds exactly when each key occurs
      once with a value the field's decoder accepts. */
  lemma DecodeFieldsByKey(members: seq<(string, Json)>, name: string, keys: seq<string>,
                          check: (nat, Json) -> Option<DecodeError>)
    requires DistinctKeys(keys)
    ensures DecodeFields(JObject(members), name, keys, check).Ok? <==>
            forall i: nat :: i < |keys| ==> KeyAccepted(members, keys, check, i)
    ensures DecodeFields(JObject(members), name, keys, check).Ok? ==>
            forall i: nat :: i < |keys| ==>
              SoleValue(members, keys[i]) == Some(DecodeFields(JObject(members), name, keys, check).value[i])
  {
    DecodeFieldsSpec(members, name, keys, check);
    forall i: nat | i < |keys|
      ensures Dispatched(members, keys, i) == ValuesOf(members, keys[i])
      ensures KeyAccepted(members, keys, check, i) <==>
              |Dispatched(members, keys, i)| == 1 && check(i, Dispatched(members, keys, i)[0]).None?
    {
      DispatchedByKey(members, keys, i);
    }
  }
}
