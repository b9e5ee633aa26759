/**
 * JSON values and the parts of Swift's `KeyedDecodingContainer` and
 * `KeyedEncodingContainer` that the decoders and encoders of the app use.
 * A JSON object is a map from key to value; numbers are integers.
 */
module Json {
  import opened Wrappers

  datatype Json =
    | JNull
    | JBool(b: bool)
    | JInt(i: int)
    | JString(s: string)
    | JArray(items: seq<Json>)
    | JObject(fields: map<string, Json>)

  type Object = map<string, Json>

  /** Why a Swift `Decodable` initialiser throws. */
  datatype DecodeError =
    | NotAnObject
    | KeyNotFound(key: string)
    | ValueNotFound(key: string)
    | TypeMismatch(key: string)

  /** The outcome of a throwing decoder: a value, or the error it throws. */
  datatype Result<+T> = Ok(value: T) | Err(error: DecodeError) {
    predicate IsFailure() {
      Err?
    }

    function PropagateFailure<U>(): Result<U>
      requires Err?
    {
      Err(error)
    }

    function Extract(): T
      requires Ok?
    {
      value
    }

    /** Swift's `try?`. */
    function ToOption(): Option<T> {
      match this
      case Ok(v) => Some(v)
      case Err(_) => None
    }
  }

  /** The error `decode(_:forKey:)` throws when the value is not of the wanted type. */
  function Missing<T>(o: Object, key: string): (r: Result<T>)
    ensures r.Err?
  {
    if key !in o then Err(KeyNotFound(key))
    else if o[key] == JNull then Err(ValueNotFound(key))
    else Err(TypeMismatch(key))
  }

  /** `container.decode(String.self, forKey: key)`. */
  function DecodeString(o: Object, key: string): (r: Result<string>)
    ensures r.Ok? <==> key in o && o[key].JString?
    ensures r.Ok? ==> o[key] == JString(r.value)
  {
    if key in o && o[key].JString? then Ok(o[key].s) else Missing(o, key)
  }

  /** `container.decode(Int.self, forKey: key)`. */
  function DecodeInt(o: Object, key: string): (r: Result<int>)
    ensures r.Ok? <==> key in o && o[key].JInt?
    ensures r.Ok? ==> o[key] == JInt(r.value)
  {
    if key in o && o[key].JInt? then Ok(o[key].i) else Missing(o, key)
  }

  /** `container.decode(Bool.self, forKey: key)`. */
  function DecodeBool(o: Object, key: string): (r: Result<bool>)
    ensures r.Ok? <==> key in o && o[key].JBool?
    ensures r.Ok? ==> o[key] == JBool(r.value)
  {
    if key in o && o[key].JBool? then Ok(o[key].b) else Missing(o, key)
  }

  /** True when `decodeIfPresent` finds nothing: the key is absent or holds `null`. */
  predicate Absent(o: Object, key: string) {
    key !in o || o[key] == JNull
  }

  /** `container.decodeIfPresent(String.self, forKey: key)`. */
  function DecodeStringIfPresent(o: Object, key: string): (r: Result<Option<string>>)
    ensures r == Ok(None) <==> Absent(o, key)
    ensures r.Err? <==> !Absent(o, key) && !o[key].JString?
    ensures r.Ok? && r.value.Some? ==> o[key] == JString(r.value.value)
  {
    if Absent(o, key) then Ok(None)
    else if o[key].JString? then Ok(Some(o[key].s))
    else Err(TypeMismatch(key))
  }

  /** `container.decodeIfPresent(Int.self, forKey: key)`. */
  function DecodeIntIfPresent(o: Object, key: string): (r: Result<Option<int>>)
    ensures r == Ok(None) <==> Absent(o, key)
    ensures r.Err? <==> !Absent(o, key) && !o[key].JInt?
    ensures r.Ok? && r.value.Some? ==> o[key] == JInt(r.value.value)
  {
    if Absent(o, key) then Ok(None)
    else if o[key].JInt? then Ok(Some(o[key].i))
    else Err(TypeMismatch(key))
  }

  /** `container.decodeIfPresent(Bool.self, forKey: key)`. */
  function DecodeBoolIfPresent(o: Object, key: string): (r: Result<Option<bool>>)
    ensures r == Ok(None) <==> Absent(o, key)
    ensures r.Err? <==> !Absent(o, key) && !o[key].JBool?
    ensures r.Ok? && r.value.Some? ==> o[key] == JBool(r.value.value)
  {
    if Absent(o, key) then Ok(None)
    else if o[key].JBool? then Ok(Some(o[key].b))
    else Err(TypeMismatch(key))
  }

  /**
   * `try? container.decode(String.self, forKey: key)`; because `try?`
   * flattens optionals, `try? container.decodeIfPresent(...)` is the same.
   */
  function TryString(o: Object, key: string): (r: Option<string>)
    ensures r.Some? <==> key in o && o[key].JString?
    ensures r.Some? ==> o[key] == JString(r.value)
  {
    DecodeString(o, key).ToOption()
  }

  /** `try? container.decode(Int.self, forKey: key)`. */
  function TryInt(o: Object, key: string): (r: Option<int>)
    ensures r.Some? <==> key in o && o[key].JInt?
    ensures r.Some? ==> o[key] == JInt(r.value)
  {
    DecodeInt(o, key).ToOption()
  }

  /** `try? container.decode(Bool.self, forKey: key)`. */
  function TryBool(o: Object, key: string): (r: Option<bool>)
    ensures r.Some? <==> key in o && o[key].JBool?
    ensures r.Some? ==> o[key] == JBool(r.value)
  {
    DecodeBool(o, key).ToOption()
  }

  /** The JSON form of an optional string, if it is written at all. */
  function StringValue(v: Option<string>): (r: Option<Json>)
    ensures r.Some? <==> v.Some?
    ensures v.Some? ==> r.value == JString(v.value)
  {
    if v.Some? then Some(JString(v.value)) else None
  }

  /** The JSON form of an optional integer, if it is written at all. */
  function IntValue(v: Option<int>): (r: Option<Json>)
    ensures r.Some? <==> v.Some?
    ensures v.Some? ==> r.value == JInt(v.value)
  {
    if v.Some? then Some(JInt(v.value)) else None
  }

  /** The JSON form of an optional Boolean, if it is written at all. */
  function BoolValue(v: Option<bool>): (r: Option<Json>)
    ensures r.Some? <==> v.Some?
    ensures v.Some? ==> r.value == JBool(v.value)
  {
    if v.Some? then Some(JBool(v.value)) else None
  }

  /** `decodeIfPresent` reads back what `encodeIfPresent` wrote for an optional string. */
  lemma StringIfPresentRoundTrip(o: Object, key: string, v: Option<string>)
    requires key in o <==> v.Some?
    requires key in o ==> o[key] == JString(v.value)
    ensures DecodeStringIfPresent(o, key) == Ok(v)
  {
  }

  /** `decodeIfPresent` reads back what `encodeIfPresent` wrote for an optional integer. */
  lemma IntIfPresentRoundTrip(o: Object, key: string, v: Option<int>)
    requires key in o <==> v.Some?
    requires key in o ==> o[key] == JInt(v.value)
    ensures DecodeIntIfPresent(o, key) == Ok(v)
  {
  }

  /** `decodeIfPresent` reads back what `encodeIfPresent` wrote for an optional Boolean. */
  lemma BoolIfPresentRoundTrip(o: Object, key: string, v: Option<bool>)
    requires key in o <==> v.Some?
    requires key in o ==> o[key] == JBool(v.value)
    ensures DecodeBoolIfPresent(o, key) == Ok(v)
  {
  }
}
