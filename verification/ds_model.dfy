/** The local data model's enumeration of scalar element types, and a
    classification of each by what it stores and how wide it is. */
module DsModel {

  /** The twelve members of the local `BasicType` enumeration. */
  datatype BasicType =
    | String | Bool
    | Float | Double
    | Int8 | Int16 | Int32 | Int64
    | UInt8 | UInt16 | UInt32 | UInt64

  /** What a scalar holds, independent of which table names it: text, a
      truth value, or a number with its signedness and width in bits. */
  datatype Kind = Text | Logical | Signed(bits: nat) | Unsigned(bits: nat) | Real(bits: nat)

  /** The kind of value a `BasicType` element stores (`Float` is the 32-bit
      and `Double` the 64-bit floating-point type). */
  function KindOf(t: BasicType): Kind {
    match t
    case String => Text
    case Bool => Logical
    case Float => Real(32)
    case Double => Real(64)
    case Int8 => Signed(8)
    case Int16 => Signed(16)
    case Int32 => Signed(32)
    case Int64 => Signed(64)
    case UInt8 => Unsigned(8)
    case UInt16 => Unsigned(16)
    case UInt32 => Unsigned(32)
    case UInt64 => Unsigned(64)
  }

  /** The unsigned members, which have no counterpart in the foreign model. */
  predicate IsUnsigned(t: BasicType) {
    KindOf(t).Unsigned?
  }
}
