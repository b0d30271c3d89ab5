/**
 The part of the JSON value type that the error renderer builds: a string
 and an object keyed by strings. The remaining JSON value forms (numbers,
 booleans, arrays, null) are never produced by the renderer and are left out.
 */
module JsonValue {
  datatype Json =
    | String(str: string)
    | Object(fields: map<string, Json>)
}
