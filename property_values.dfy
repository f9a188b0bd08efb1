/**
 * The part of Gradoop's tagged `PropertyValue` that the core reads: strings,
 * 64-bit longs and maps from value to value.
 */
module PropertyValues {

  /** Java's `long`. */
  type Int64 = x: int | -0x8000_0000_0000_0000 <= x < 0x8000_0000_0000_0000

  /** A property value; the constructor is its type tag. */
  datatype Value =
    | Str(str: string)
    | Long(long: Int64)
    | Map(entries: map<Key, Value>)

  /** A key of a map-valued property: a Java reference that may be `null`. */
  datatype Key = NullKey | KeyOf(value: Value)

  /** Why reading a property fails: a `null` dereference or the wrong accessor for the tag. */
  datatype AccessError = NullReference | TypeMismatch

  /** A property bag; `set` overwrites the value of an existing key. */
  type Properties = map<string, Value>
}
