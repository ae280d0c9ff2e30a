/** Dispatch of a boxed Java scalar to the Python scalar type it is
    converted with. Only the choice of type is modelled; the conversion of
    the value itself is not. */
module JpypeTools {
  import opened Results
  import opened DsModel
  import Transformations

  /** The runtime class of a boxed Java scalar: one of the eight boxed
      classes of `java.lang`, or any other class, given by its name. */
  datatype JavaClass =
    | ByteClass | ShortClass | IntegerClass | LongClass
    | FloatClass | DoubleClass | BooleanClass | StringClass
    | OtherClass(name: string)

  /** The fully qualified name of a class. */
  function ClassName(c: JavaClass): string {
    match c
    case ByteClass => "java.lang.Byte"
    case ShortClass => "java.lang.Short"
    case IntegerClass => "java.lang.Integer"
    case LongClass => "java.lang.Long"
    case FloatClass => "java.lang.Float"
    case DoubleClass => "java.lang.Double"
    case BooleanClass => "java.lang.Boolean"
    case StringClass => "java.lang.String"
    case OtherClass(name) => name
  }

  /** What a value of each boxed class holds, as the Java language defines
      it; `None` for the classes outside the eight. */
  function JavaKind(c: JavaClass): Option<Kind> {
    match c
    case ByteClass => Some(Signed(8))
    case ShortClass => Some(Signed(16))
    case IntegerClass => Some(Signed(32))
    case LongClass => Some(Signed(64))
    case FloatClass => Some(Real(32))
    case DoubleClass => Some(Real(64))
    case BooleanClass => Some(Logical)
    case StringClass => Some(Text)
    case OtherClass(_) => None
  }

  /** The Python scalar types a boxed scalar is converted with. */
  datatype Dtype = NpInt8 | NpInt16 | NpInt32 | NpInt64 | NpFloat32 | NpFloat64 | PyBool | PyStr

  /** What a value of each Python scalar type holds. */
  function DtypeKind(d: Dtype): Kind {
    match d
    case NpInt8 => Signed(8)
    case NpInt16 => Signed(16)
    case NpInt32 => Signed(32)
    case NpInt64 => Signed(64)
    case NpFloat32 => Real(32)
    case NpFloat64 => Real(64)
    case PyBool => Logical
    case PyStr => Text
  }

  /** How the Python bridge formats a Java class as text. */
  function ClassRepr(c: JavaClass): string {
    "<java class '" + ClassName(c) + "'>"
  }

  /** The message of the error raised for a class outside the table. */
  function CannotConvertMessage(c: JavaClass): string {
    "Cannot convert Java scalar type " + ClassRepr(c) + " to a Python scalar"
  }

  /** The Python scalar type a boxed Java scalar of runtime class `c` is
      converted with. The lookup is on the exact class: the eight boxed
      classes are accepted and every other class raises a `TypeError`
      naming it. The chosen type keeps the boxed value's signedness and
      width, so no integer or float is narrowed or widened. */
  function ScalarDtype(c: JavaClass): (r: Result<Dtype>)
    ensures r.Ok? <==> !c.OtherClass?
    ensures r.Err? ==> r.error == TypeError(CannotConvertMessage(c))
    ensures r.Ok? ==> JavaKind(c) == Some(DtypeKind(r.value))
  {
    match c
    case ByteClass => Ok(NpInt8)
    case ShortClass => Ok(NpInt16)
    case IntegerClass => Ok(NpInt32)
    case LongClass => Ok(NpInt64)
    case FloatClass => Ok(NpFloat32)
    case DoubleClass => Ok(NpFloat64)
    case BooleanClass => Ok(PyBool)
    case StringClass => Ok(PyStr)
    case OtherClass(_) => Err(TypeError(CannotConvertMessage(c)))
  }

  /** Distinct boxed classes are converted with distinct Python types. */
  lemma ScalarDtypeInjective(a: JavaClass, b: JavaClass)
    requires ScalarDtype(a).Ok? && ScalarDtype(b).Ok?
    requires ScalarDtype(a).value == ScalarDtype(b).value
    ensures a == b
  {
  }

  /** The boxed class in which the foreign middleware delivers a scalar of
      each element type. */
  function BoxedClass(e: Transformations.Element): JavaClass {
    match e
    case Boolean => BooleanClass
    case Byte => ByteClass
    case Short => ShortClass
    case Int => IntegerClass
    case Long => LongClass
    case Float => FloatClass
    case Double => DoubleClass
    case String => StringClass
  }

  /** The two tables agree: for every foreign scalar kind, the Python type
      chosen for its boxed class holds the same kind of value, of the same
      width, as the basic type the kind maps to (BYTE and `Byte` are both
      signed 8-bit, FLOAT and `Float` both 32-bit floating point, …). */
  lemma ScalarTablesAgree(e: Transformations.Element)
    ensures ScalarDtype(BoxedClass(e)).Ok?
    ensures Transformations.ValueTypeToBasicType(Some(Transformations.Scalar(e))).Ok?
    ensures DtypeKind(ScalarDtype(BoxedClass(e)).value)
         == KindOf(Transformations.ValueTypeToBasicType(Some(Transformations.Scalar(e))).value)
  {
  }
}
