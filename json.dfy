/** The JSON values a deserializer hands to a visitor, the error a visitor
    reports, and the Result type that carries either a value or that error.
    JSON text itself is not parsed here: a `Value` is what the JSON parser
    produced from it. */
module Json {

  /** Rust's `u64`: the unsigned 64-bit integers. */
  type u64 = x: int | 0 <= x < 0x1_0000_0000_0000_0000

  /** The integers the JSON deserializer hands to visit_i64: those of Rust's
      `i64` that are not positive (`-0` arrives as 0). */
  type NonPositiveI64 = x: int | -0x8000_0000_0000_0000 <= x <= 0

  /** A parsed JSON value, classified the way the JSON deserializer classifies
      it before calling a visitor: a non-negative integer that fits 64 bits
      (visit_u64), a negative integer that fits 64 bits (visit_i64), any other
      number, including an integer outside both 64-bit ranges, kept as its
      literal text because floating point is not modelled (visit_f64), a
      string (visit_str), and the structural kinds. */
  datatype Value =
    | Null
    | Bool(b: bool)
    | UInt(u: u64)
    | NegInt(i: NonPositiveI64)
    | Float(literal: string)
    | Str(s: string)
    | Array(items: seq<Value>)
    | Object(fields: map<string, Value>)

  /** The errors a visitor or a derived struct deserializer raises. */
  datatype DeError =
    | InvalidType                  // the visitor has no visit_* for this kind of value
    | InvalidValue(reason: string) // the kind is accepted but this value is not
    | MissingField(field: string)  // a struct field is absent from the object

  /** A decoded value or the error that stopped decoding; usable with `:-`. */
  datatype Result<+T> = Ok(value: T) | Err(error: DeError) {
    predicate IsFailure() {
      Err?
    }

    function PropagateFailure<U>(): Result<U>
      requires Err?
    {
      Err(error)
    }

    function Extract(): T
      requires Ok?
    {
      value
    }
  }
}
