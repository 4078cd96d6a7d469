/**
 * An abstract JSON value standing in for `Poco::JSON::Object` and
 * `Poco::JSON::Array`, with the typed accessors the engine uses.
 */
module Json {
  import opened Wrappers
  import opened Strings

  datatype Json =
    | JNull
    | JBool(b: bool)
    | JInt(n: int)
    | JString(s: string)
    | JArray(elements: seq<Json>)
    | JObject(fields: map<string, Json>)

  type Object = map<string, Json>

  /** The start of the message of the exception a failed typed read throws; the key follows it. */
  const MissingValue: string := "JSON value missing or of another type: "

  /** `Object::getValue<std::string>`: an exception when the key is missing or holds no string. */
  function GetString(o: Object, key: string): (r: Result<string>)
    ensures r.Ok? <==> key in o && o[key].JString?
    ensures r.Ok? ==> o[key] == JString(r.value)
  {
    if key in o && o[key].JString? then Ok(o[key].s) else Err(MissingValue + key)
  }

  /** `Object::getValue<bool>`. */
  function GetBool(o: Object, key: string): (r: Result<bool>)
    ensures r.Ok? <==> key in o && o[key].JBool?
    ensures r.Ok? ==> o[key] == JBool(r.value)
  {
    if key in o && o[key].JBool? then Ok(o[key].b) else Err(MissingValue + key)
  }

  /** `Object::getValue<uint64_t>`. */
  function GetUInt64(o: Object, key: string): (r: Result<UInt64>)
    ensures r.Ok? <==> key in o && o[key].JInt? && 0 <= o[key].n <= UINT64_MAX
    ensures r.Ok? ==> o[key] == JInt(r.value)
  {
    if key in o && o[key].JInt? && 0 <= o[key].n <= UINT64_MAX then Ok(o[key].n)
    else Result<UInt64>.Err(MissingValue + key)
  }

  /** `Object::getArray`: a null pointer when the key is missing or holds no array. */
  function GetArray(o: Object, key: string): (r: Option<seq<Json>>)
    ensures r.Some? <==> key in o && o[key].JArray?
    ensures r.Some? ==> o[key] == JArray(r.value)
  {
    if key in o && o[key].JArray? then Some(o[key].elements) else None
  }

  /** `Object::getObject`: a null pointer when the key is missing or holds no object. */
  function GetObject(o: Object, key: string): (r: Option<Object>)
    ensures r.Some? <==> key in o && o[key].JObject?
    ensures r.Some? ==> o[key] == JObject(r.value)
  {
    if key in o && o[key].JObject? then Some(o[key].fields) else None
  }
}
