/**
 * JSON values as Python's `json` module hands them back from `response.json()`
 * (floating-point numbers are not modelled).
 */
module Json {
  datatype JsonValue =
    | JNull
    | JBool(b: bool)
    | JInt(i: int)
    | JString(s: string)
    | JArray(items: seq<JsonValue>)
    | JObject(fields: map<string, JsonValue>)

  /** Python's `value == 0`: true for the integer zero and for `False`. */
  predicate EqualsZero(v: JsonValue) {
    v == JInt(0) || v == JBool(false)
  }

  /** `data.get("code") == 0` on a decoded object: the key is present and its value equals zero. */
  predicate CodeIsZero(fields: map<string, JsonValue>) {
    "code" in fields && EqualsZero(fields["code"])
  }
}
