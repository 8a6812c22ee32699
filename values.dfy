/** Values shared by the store, the activity and the listener: an Option type and
    the dynamically typed values held in a `Map<String, Any>`, a `JSONObject` or an
    Android `Bundle`. */
module Values {

  datatype Option<+T> = None | Some(value: T)

  /** A value as it sits in a map of `Any`, tagged with its runtime class.
      `Null` is a key bound to null (a Bundle allows it); every class other than
      String, Integer and Long (a CharSequence span, a Boolean, ...) is `Other`. */
  datatype Value =
    | Str(s: string)
    | Int32(i: int)
    | Int64(l: int)
    | Null
    | Other

  /** Kotlin's `m[key] as? String ?: default`. */
  function StringOr(m: map<string, Value>, key: string, default: string): string
  {
    if key in m && m[key].Str? then m[key].s else default
  }

  /** Kotlin's `m[key] as? Long ?: default`: a boxed Integer is not a Long, so an
      `Int32` falls back to the default as well. */
  function LongOr(m: map<string, Value>, key: string, default: int): int
  {
    if key in m && m[key].Int64? then m[key].l else default
  }
}
