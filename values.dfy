/** The Python values that flow through the ORM: record fields, query arguments, limits. */
module Values {

  /**
   * A Python value as far as the ORM inspects it. `Opaque` stands for every value
   * the ORM only stores and passes on (floats such as FloatField's `0.0`, dates, ...).
   */
  datatype Value =
    | Null
    | Bool(b: bool)
    | Int(i: int)
    | Str(s: string)
    | Tuple(items: seq<Value>)
    | Opaque(repr: string)

  /** `isinstance(v, int)`: Python's `bool` is a subclass of `int`. */
  predicate IsInt(v: Value) {
    v.Int? || v.Bool?
  }

  /** A database row as returned by a dictionary cursor: column name to value. */
  type Row = map<string, Value>
}
