/**
 * An already-parsed JSON document and the decoding rules that Swift's
 * synthesized `Decodable` conformances follow on top of `JSONDecoder`.
 *
 * A non-optional stored property is decoded with `decode(_:forKey:)`: a
 * missing key is a `keyNotFound` error, a `null` value a `valueNotFound`
 * error. An `Optional` property is decoded with `decodeIfPresent`: a missing
 * key or a `null` value gives `nil`, any other value must decode. Keys the
 * record does not declare are ignored.
 */
module Json {
  import opened Wrappers

  datatype Json =
    | JNull
    | JBool(b: bool)
    | JNumber(n: real)
    | JString(s: string)
    | JArray(elems: seq<Json>)
    | JObject(fields: map<string, Json>)

  /** The cases of Swift's `DecodingError` that synthesized decoding raises. */
  datatype DecodeError =
    | TypeMismatch
    | ValueNotFound
    | KeyNotFound(key: string)
    | DataCorrupted

  type Decoded<T> = Result<T, DecodeError>

  /** Swift's `Int` on the 64-bit platforms the app runs on. */
  const IntMin: int := -0x8000_0000_0000_0000
  const IntMax: int := 0x7fff_ffff_ffff_ffff

  /** The value stored under `key`, if the object has that key. */
  function Lookup(fields: map<string, Json>, key: string): Option<Json> {
    if key in fields then Some(fields[key]) else None
  }

  function AsString(j: Json): (r: Decoded<string>)
    ensures r.Success? <==> j.JString?
    ensures r.Success? ==> r.value == j.s
  {
    match j
    case JString(s) => Success(s)
    case JNull => Failure(ValueNotFound)
    case _ => Failure(TypeMismatch)
  }

  function AsBool(j: Json): (r: Decoded<bool>)
    ensures r.Success? <==> j.JBool?
    ensures r.Success? ==> r.value == j.b
  {
    match j
    case JBool(b) => Success(b)
    case JNull => Failure(ValueNotFound)
    case _ => Failure(TypeMismatch)
  }

  /** A JSON number decodes as `Int` only when it is whole and fits in 64 bits. */
  predicate FitsInt(n: real) {
    n.Floor as real == n && IntMin <= n.Floor <= IntMax
  }

  function AsInt(j: Json): (r: Decoded<int>)
    ensures r.Success? <==> j.JNumber? && FitsInt(j.n)
    ensures r.Success? ==> r.value as real == j.n && IntMin <= r.value <= IntMax
  {
    match j
    case JNumber(n) => if FitsInt(n) then Success(n.Floor) else Failure(DataCorrupted)
    case JNull => Failure(ValueNotFound)
    case _ => Failure(TypeMismatch)
  }

  /** Decodes every element with `dec`; the first failure fails the whole array. */
  function DecodeEach<T>(elems: seq<Json>, dec: Json -> Decoded<T>): (r: Decoded<seq<T>>)
    ensures r.Success? <==> forall i :: 0 <= i < |elems| ==> dec(elems[i]).Success?
    ensures r.Success? ==> |r.value| == |elems|
    ensures r.Success? ==> forall i :: 0 <= i < |elems| ==> dec(elems[i]) == Success(r.value[i])
  {
    if elems == [] then Success([])
    else
      var head :- dec(elems[0]);
      var tail :- DecodeEach(elems[1..], dec);
      Success([head] + tail)
  }

  /** An unkeyed container of `T`: `[T]` in Swift. */
  function AsArray<T>(j: Json, dec: Json -> Decoded<T>): (r: Decoded<seq<T>>)
    ensures r.Success? <==> j.JArray? && forall i :: 0 <= i < |j.elems| ==> dec(j.elems[i]).Success?
    ensures r.Success? ==> |r.value| == |j.elems|
  {
    match j
    case JArray(es) => DecodeEach(es, dec)
    case JNull => Failure(ValueNotFound)
    case _ => Failure(TypeMismatch)
  }

  function AsStrings(j: Json): Decoded<seq<string>> {
    AsArray(j, AsString)
  }

  /** `decode(_:forKey:)` for a non-optional property. */
  function Required<T>(fields: map<string, Json>, key: string, dec: Json -> Decoded<T>): Decoded<T>
  {
    match Lookup(fields, key)
    case None => Failure(KeyNotFound(key))
    case Some(v) => dec(v)
  }

  /** `decodeIfPresent(_:forKey:)` for an `Optional` property. */
  function Optional<T>(fields: map<string, Json>, key: string, dec: Json -> Decoded<T>): Decoded<Option<T>>
  {
    match Lookup(fields, key)
    case None => Success(None)
    case Some(v) =>
      if v == JNull then Success(None)
      else
        var x :- dec(v);
        Success(Some(x))
  }
}
