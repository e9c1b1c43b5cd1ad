/** The values the layout decoder produces, and the failures that end a decode. */
module Values {

  /** One octet of the input buffer. */
  type byte = x: int | 0 <= x < 256

  /** The fixed-width primitive reads the byte cursor offers. */
  datatype ScalarKind =
    | Int8 | UInt8 | Int16 | UInt16 | Int32 | UInt32 | Int64 | UInt64
    | Float | Double | Boolean | Byte

  /** Number of bytes one read of the kind consumes. */
  function Width(k: ScalarKind): nat
  {
    match k
    case Int8 => 1
    case UInt8 => 1
    case Byte => 1
    case Boolean => 1
    case Int16 => 2
    case UInt16 => 2
    case Int32 => 4
    case UInt32 => 4
    case Float => 4
    case Int64 => 8
    case UInt64 => 8
    case Double => 8
  }

  /** Kinds whose bytes stand for an integer (floats and booleans stay opaque). */
  predicate IsIntegral(k: ScalarKind)
  {
    !(k.Float? || k.Double? || k.Boolean?)
  }

  predicate IsSigned(k: ScalarKind)
  {
    k.Int8? || k.Int16? || k.Int32? || k.Int64?
  }

  function Pow256(n: nat): (r: nat)
    ensures r >= 1
  {
    if n == 0 then 1 else 256 * Pow256(n - 1)
  }

  /** Little-endian unsigned reading of a byte string. */
  function Unsigned(bits: seq<byte>): (r: nat)
    ensures r < Pow256(|bits|)
  {
    if |bits| == 0 then 0 else bits[0] + 256 * Unsigned(bits[1..])
  }

  /** The integer an integral read stands for: two's complement for the signed kinds. */
  function IntValue(k: ScalarKind, bits: seq<byte>): int
  {
    var u := Unsigned(bits);
    if IsSigned(k) && 2 * u >= Pow256(|bits|) then u - Pow256(|bits|) else u
  }

  datatype Option<+T> = None | Some(value: T)

  /**
   * A decoded value. `Scalar` keeps the bytes of a primitive read unmodified;
   * `Object` is a record keyed by field name; `ModeMap` is a star-rating table
   * keyed by game-mode id; `Undefined` is what reading a missing field gives.
   */
  datatype Value =
    | Undefined
    | Null
    | Scalar(kind: ScalarKind, bits: seq<byte>)
    | Text(bytes: seq<byte>)
    | List(items: seq<Value>)
    | Object(fields: map<string, Value>)
    | ModeMap(ratings: map<int, Value>)

  /** The number an integer-valued field holds, if it holds one. */
  function AsInteger(v: Value): Option<int>
  {
    if v.Scalar? && IsIntegral(v.kind) then Some(IntValue(v.kind, v.bits)) else None
  }

  datatype DecodeError =
    | OutOfBounds                 // a read would go past the end of the buffer
    | NotAnInteger(field: string) // a count or version field holds something other than an integer

  datatype Result<+T> = Ok(value: T) | Err(error: DecodeError)
  {
    predicate IsFailure() { Err? }

    function PropagateFailure<U>(): Result<U>
      requires Err?
    {
      Err(error)
    }

    function Extract(): T
      requires Ok?
    {
      value
    }
  }

  /**
   * A cursor method's outcome `r`, with the cursor left at `pos`, agrees with
   * the reference decoder's outcome `spec` (a value and the position after it).
   */
  ghost predicate Matches<T>(r: Result<T>, pos: nat, spec: Result<(T, nat)>)
  {
    match spec
    case Ok(vp) => r == Ok(vp.0) && pos == vp.1
    case Err(e) => r == Err(e)
  }
}
