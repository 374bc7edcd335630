/**
  * Runtime values of src/interpreter (the `Value` enum as src/interpreter/core.rs constructs it)
  * and the operations on them, which the evaluator calls but which are not part of this model.
  */
module Values {
  import Tokens

  /**
    * A runtime value. A float is kept as the bit pattern of an IEEE-754 single (src/interpreter/value.rs
    * stores an `f32`); no floating-point arithmetic is modelled.
    */
  datatype Value =
    | Boolean(b: bool)
    | Integer(i: int)
    | Float(bits: bv32)
    | String(s: string)

  /** `Value::Float(-1.0)`, the left factor of a unary minus. */
  const MinusOne: Value := Float(0xBF80_0000)

  /**
    * The value operations the evaluator calls (`to_bool`, `add_value`, `eq_value`, ...), the
    * textual form `to_string`, `convert_to_number`, and the conversion of a numeral's text to a
    * value. Their definitions are not part of this model, so every property proved here holds
    * whatever they compute.
    */
  datatype ValueOps = ValueOps(
    toBool: Value -> bool,
    add: (Value, Value) -> Value,
    sub: (Value, Value) -> Value,
    mul: (Value, Value) -> Value,
    div: (Value, Value) -> Value,
    power: (Value, Value) -> Value,
    eq: (Value, Value) -> Value,
    neq: (Value, Value) -> Value,
    gt: (Value, Value) -> Value,
    lt: (Value, Value) -> Value,
    gte: (Value, Value) -> Value,
    lte: (Value, Value) -> Value,
    and: (Value, Value) -> Value,
    or: (Value, Value) -> Value,
    toText: Value -> string,
    convertToNumber: Value -> Value,
    numeral: (Tokens.NumeralKind, string) -> Value)
}
