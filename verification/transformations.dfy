/** The foreign middleware's value-type enumeration and its partial map
    onto the local basic types. */
module Transformations {
  import opened Results
  import opened DsModel
  import DmHelpers

  /** The element types of the foreign scalar kinds. */
  datatype Element = Boolean | Byte | Short | Int | Long | Float | Double | String

  /** The foreign value types: each element type as a scalar, a 1-D array
      and a 2-D array, plus the kinds that carry no element type. */
  datatype ValueType =
    | Scalar(elem: Element)
    | Array(elem: Element)
    | Array2D(elem: Element)
    | Enum | EnumSet | DiscreteFunction | DiscreteFunctionList

  /** The foreign enumeration's own constant name for an element type. */
  function ElementName(e: Element): string {
    match e
    case Boolean => "BOOLEAN"
    case Byte => "BYTE"
    case Short => "SHORT"
    case Int => "INT"
    case Long => "LONG"
    case Float => "FLOAT"
    case Double => "DOUBLE"
    case String => "STRING"
  }

  /** How a foreign value type (or Python's `None`) formats as text. */
  function Repr(v: Option<ValueType>): string {
    match v
    case None => "None"
    case Some(Scalar(e)) => ElementName(e)
    case Some(Array(e)) => ElementName(e) + "_ARRAY"
    case Some(Array2D(e)) => ElementName(e) + "_ARRAY_2D"
    case Some(Enum) => "ENUM"
    case Some(EnumSet) => "ENUM_SET"
    case Some(DiscreteFunction) => "DISCRETE_FUNCTION"
    case Some(DiscreteFunctionList) => "DISCRETE_FUNCTION_LIST"
  }

  /** The message of the error raised for a value type outside the table. */
  function UnknownMessage(v: Option<ValueType>): string {
    "Unknown type " + Repr(v)
  }

  /** The eight-entry table from scalar element types to basic types. */
  function ElementBasicType(e: Element): BasicType {
    match e
    case Boolean => BasicType.Bool
    case Byte => BasicType.Int8
    case Short => BasicType.Int16
    case Int => BasicType.Int32
    case Long => BasicType.Int64
    case Float => BasicType.Float
    case Double => BasicType.Double
    case String => BasicType.String
  }

  /** The reverse direction, written independently: the foreign element type
      that carries values of a basic type, or `None` for the unsigned
      types, which the foreign model does not have. */
  function ForeignElement(t: BasicType): Option<Element> {
    match t
    case String => Some(Element.String)
    case Bool => Some(Boolean)
    case Float => Some(Element.Float)
    case Double => Some(Element.Double)
    case Int8 => Some(Byte)
    case Int16 => Some(Short)
    case Int32 => Some(Int)
    case Int64 => Some(Long)
    case UInt8 => None
    case UInt16 => None
    case UInt32 => None
    case UInt64 => None
  }

  /** Maps a foreign value type to its basic type. Only the eight scalar
      kinds are in the table; arrays, the element-less kinds and `None`
      raise a `TypeError` naming the input. A result is never unsigned,
      and the reverse table leads back to the input, so distinct inputs
      give distinct results. */
  function ValueTypeToBasicType(v: Option<ValueType>): (r: Result<BasicType>)
    ensures r.Ok? <==> v.Some? && v.value.Scalar?
    ensures r.Err? ==> r.error == TypeError(UnknownMessage(v))
    ensures r.Ok? ==> ForeignElement(r.value) == Some(v.value.elem)
    ensures r.Ok? ==> !IsUnsigned(r.value)
  {
    match v
    case Some(Scalar(e)) => Ok(ElementBasicType(e))
    case _ => Err(TypeError(UnknownMessage(v)))
  }

  /** The eight entries of the table, as the test suite lists them. */
  lemma EightMappings()
    ensures ValueTypeToBasicType(Some(Scalar(Boolean))) == Ok(BasicType.Bool)
    ensures ValueTypeToBasicType(Some(Scalar(Byte))) == Ok(BasicType.Int8)
    ensures ValueTypeToBasicType(Some(Scalar(Short))) == Ok(BasicType.Int16)
    ensures ValueTypeToBasicType(Some(Scalar(Int))) == Ok(BasicType.Int32)
    ensures ValueTypeToBasicType(Some(Scalar(Long))) == Ok(BasicType.Int64)
    ensures ValueTypeToBasicType(Some(Scalar(Element.Float))) == Ok(BasicType.Float)
    ensures ValueTypeToBasicType(Some(Scalar(Element.Double))) == Ok(BasicType.Double)
    ensures ValueTypeToBasicType(Some(Scalar(Element.String))) == Ok(BasicType.String)
  {
  }

  /** Array kinds carry a rank the basic types do not, and are rejected. */
  lemma ArrayKindsRejected(e: Element)
    ensures ValueTypeToBasicType(Some(Array(e))) == Err(TypeError("Unknown type " + ElementName(e) + "_ARRAY"))
    ensures ValueTypeToBasicType(Some(Array2D(e))) == Err(TypeError("Unknown type " + ElementName(e) + "_ARRAY_2D"))
  {
  }

  /** Python's `None` is rejected with the message "Unknown type None". */
  lemma NoneIsUnknown()
    ensures ValueTypeToBasicType(None) == Err(TypeError("Unknown type None"))
  {
  }

  /** Distinct foreign value types never map to the same basic type. */
  lemma ValueTypeToBasicTypeInjective(u: Option<ValueType>, v: Option<ValueType>)
    requires ValueTypeToBasicType(u).Ok? && ValueTypeToBasicType(v).Ok?
    requires ValueTypeToBasicType(u).value == ValueTypeToBasicType(v).value
    ensures u == v
  {
  }

  /** The image of the map is exactly the non-unsigned basic types: each of
      the eight is reached from the element type the reverse table gives. */
  lemma ValueTypeToBasicTypeImage(t: BasicType)
    ensures (exists v :: ValueTypeToBasicType(v) == Ok(t)) <==> !IsUnsigned(t)
  {
    if !IsUnsigned(t) {
      var e := ForeignElement(t).value;
      assert ValueTypeToBasicType(Some(Scalar(e))) == Ok(t);
    }
  }

  /** Every basic type the map yields has a getter and a setter at each of
      the ranks 0, 1 and 2. */
  lemma MappedTypesHaveAccessors(v: Option<ValueType>, rank: int)
    requires ValueTypeToBasicType(v).Ok?
    requires 0 <= rank <= 2
    ensures DmHelpers.MethodSuffix(DmHelpers.Basic(ValueTypeToBasicType(v).value), rank).Ok?
    ensures DmHelpers.GetterName(DmHelpers.Basic(ValueTypeToBasicType(v).value), rank).Ok?
    ensures DmHelpers.SetterName(DmHelpers.Basic(ValueTypeToBasicType(v).value), rank).Ok?
  {
  }
}
