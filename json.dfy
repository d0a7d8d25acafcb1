/** Parsed JSON values and the org.json accessors the converter calls on them.
    An object is a map from key to value, an array a sequence. Numbers are the
    integers the documents carry; the accessors narrow them the way
    Number.intValue and Number.longValue do. The accessors do not coerce: a
    value of the wrong kind, or a missing key, raises JSONException. */
module Json {
  import opened Wrappers
  import opened JavaLang

  datatype Json =
    | JNull
    | JBool(b: bool)
    | JNum(n: int)
    | JStr(s: string)
    | JArr(elems: seq<Json>)
    | JObj(fields: map<string, Json>)

  type Object = map<string, Json>

  /** JSONObject.getString. */
  function GetString(o: Object, key: string): (r: Result<string, Exception>)
    ensures r.Success? <==> key in o && o[key].JStr?
    ensures r.Success? ==> o[key] == JStr(r.value)
    ensures r.Failure? ==> r.error == JSONException(key)
  {
    if key in o && o[key].JStr? then Success(o[key].s) else Failure(JSONException(key))
  }

  /** JSONObject.getInt: the low 32 bits of the number. */
  function GetInt(o: Object, key: string): (r: Result<int, Exception>)
    ensures r.Success? <==> key in o && o[key].JNum?
    ensures r.Success? ==> r.value == ToInt32(o[key].n)
    ensures r.Failure? ==> r.error == JSONException(key)
  {
    if key in o && o[key].JNum? then Success(ToInt32(o[key].n)) else Failure(JSONException(key))
  }

  /** JSONObject.getLong: the low 64 bits of the number. */
  function GetLong(o: Object, key: string): (r: Result<int, Exception>)
    ensures r.Success? <==> key in o && o[key].JNum?
    ensures r.Success? ==> r.value == ToInt64(o[key].n)
    ensures r.Failure? ==> r.error == JSONException(key)
  {
    if key in o && o[key].JNum? then Success(ToInt64(o[key].n)) else Failure(JSONException(key))
  }

  /** JSONObject.getBoolean. */
  function GetBoolean(o: Object, key: string): (r: Result<bool, Exception>)
    ensures r.Success? <==> key in o && o[key].JBool?
    ensures r.Success? ==> o[key] == JBool(r.value)
    ensures r.Failure? ==> r.error == JSONException(key)
  {
    if key in o && o[key].JBool? then Success(o[key].b) else Failure(JSONException(key))
  }

  /** JSONObject.getJSONObject. */
  function GetObject(o: Object, key: string): (r: Result<Object, Exception>)
    ensures r.Success? <==> key in o && o[key].JObj?
    ensures r.Success? ==> o[key] == JObj(r.value)
    ensures r.Failure? ==> r.error == JSONException(key)
  {
    if key in o && o[key].JObj? then Success(o[key].fields) else Failure(JSONException(key))
  }

  /** JSONObject.getJSONArray. */
  function GetArray(o: Object, key: string): (r: Result<seq<Json>, Exception>)
    ensures r.Success? <==> key in o && o[key].JArr?
    ensures r.Success? ==> o[key] == JArr(r.value)
    ensures r.Failure? ==> r.error == JSONException(key)
  {
    if key in o && o[key].JArr? then Success(o[key].elems) else Failure(JSONException(key))
  }

  /** JSONObject.optJSONArray: the array under key, or null. */
  function OptArray(o: Object, key: string): (r: Option<seq<Json>>)
    ensures r.Some? <==> key in o && o[key].JArr?
    ensures r.Some? ==> o[key] == JArr(r.value)
  {
    if key in o && o[key].JArr? then Some(o[key].elems) else None
  }

  /** JSONArray.optJSONObject: the object at index i, or null when the index is
      out of range or the element is not an object. */
  function OptObject(a: seq<Json>, i: int): (r: Option<Object>)
    ensures r.Some? <==> 0 <= i < |a| && a[i].JObj?
    ensures r.Some? ==> a[i] == JObj(r.value)
  {
    if 0 <= i < |a| && a[i].JObj? then Some(a[i].fields) else None
  }

  /** The text parser behind `new JSONObject(text)`: None stands for the
      JSONException it throws on text that is not a JSON object. */
  type Parser = string -> Option<Json>

  /** `new JSONObject(text)`. */
  function ParseObject(parse: Parser, text: string): (r: Result<Object, Exception>)
    ensures r.Success? <==> parse(text).Some? && parse(text).value.JObj?
    ensures r.Success? ==> parse(text) == Some(JObj(r.value))
    ensures r.Failure? ==> r.error == JSONException(text)
  {
    match parse(text)
    case Some(JObj(o)) => Success(o)
    case _ => Failure(JSONException(text))
  }

  /** The string under key when there is one, otherwise the default: what
      `has(key) ? getString(key) : dflt` gives when it does not throw. */
  function StringOr(o: Object, key: string, dflt: string): (r: string)
    ensures key in o && o[key].JStr? ==> o[key] == JStr(r)
    ensures key !in o ==> r == dflt
  {
    if key in o && o[key].JStr? then o[key].s else dflt
  }

  /** The object at items[0] of a document, when "items" is an array whose
      first element is an object. */
  function FirstItem(doc: Object): (r: Option<Object>)
    ensures r.Some? <==> "items" in doc && doc["items"].JArr? && OptObject(doc["items"].elems, 0).Some?
    ensures r.Some? ==> doc["items"].elems[0] == JObj(r.value)
  {
    if "items" in doc && doc["items"].JArr? then OptObject(doc["items"].elems, 0) else None
  }
}
