/** Accessor-name resolution for the local dynamic-value container: a
    (basic type, array rank) pair names the `get_…` / `set_…` method that
    reads or writes a field of that type and rank. */
module DmHelpers {
  import opened Results
  import opened DsModel

  /** The `basic_type` argument as the Python code receives it: a member of
      the `BasicType` enumeration, any other hashable Python value (given by
      the text it formats as), or an unhashable value such as a list (given
      by its type's name), on which the table's membership test itself
      raises. */
  datatype TypeArg = Basic(t: BasicType) | NotBasic(repr: string) | Unhashable(typeName: string)

  /** The type-name table: one accessor stem per basic type. */
  function TypeName(t: BasicType): string {
    match t
    case String => "str"
    case Bool => "bool"
    case Float => "float"
    case Double => "double"
    case Int8 => "int8"
    case Int16 => "int16"
    case Int32 => "int32"
    case Int64 => "int64"
    case UInt8 => "uint8"
    case UInt16 => "uint16"
    case UInt32 => "uint32"
    case UInt64 => "uint64"
  }

  /** The text appended to the stem for each accepted rank. */
  function RankSuffix(rank: int): string
    requires 0 <= rank <= 2
  {
    if rank == 0 then "" else if rank == 1 then "_array" else "_array_2D"
  }

  const RankMessage: string := "Array rank must be 0, 1 or 2"

  /** The message Python raises when an unhashable value is looked up in a
      dictionary. */
  function UnhashableMessage(typeName: string): string {
    "unhashable type: '" + typeName + "'"
  }

  /** The message of the error raised for an argument outside the table. */
  function UnhandledMessage(repr: string): string {
    "Unhandled type " + repr
  }

  // ---------------------------------------------------------------------
  // Reading an accessor suffix back: the independent reference definition
  // against which the suffix construction is proved injective.
  // ---------------------------------------------------------------------

  /** Splits `s` at its first underscore: the part before it, and the rest
      starting with that underscore (empty when there is none). */
  function SplitAtUnderscore(s: string): (p: (string, string))
    ensures p.0 + p.1 == s
    ensures '_' !in p.0
    ensures p.1 == [] || p.1[0] == '_'
  {
    if s == [] then ([], [])
    else if s[0] == '_' then ([], s)
    else
      var rest := SplitAtUnderscore(s[1..]);
      ([s[0]] + rest.0, rest.1)
  }

  /** The split is unique: a stem without underscores followed by a tail that
      is empty or starts with one splits back into exactly those parts. */
  lemma {:induction false} SplitAtUnderscoreOfAppend(stem: string, tail: string)
    requires '_' !in stem
    requires tail == [] || tail[0] == '_'
    ensures SplitAtUnderscore(stem + tail) == (stem, tail)
  {
    if stem == [] {
      assert stem + tail == tail;
    } else {
      assert (stem + tail)[0] == stem[0];
      assert (stem + tail)[1..] == stem[1..] + tail;
      SplitAtUnderscoreOfAppend(stem[1..], tail);
      assert [stem[0]] + stem[1..] == stem;
    }
  }

  /** The basic type whose stem is `name`, if any. */
  function TypeOfName(name: string): Option<BasicType> {
    if name == "str" then Some(String)
    else if name == "bool" then Some(Bool)
    else if name == "float" then Some(Float)
    else if name == "double" then Some(Double)
    else if name == "int8" then Some(Int8)
    else if name == "int16" then Some(Int16)
    else if name == "int32" then Some(Int32)
    else if name == "int64" then Some(Int64)
    else if name == "uint8" then Some(UInt8)
    else if name == "uint16" then Some(UInt16)
    else if name == "uint32" then Some(UInt32)
    else if name == "uint64" then Some(UInt64)
    else None
  }

  /** The rank whose suffix is `tail`, if any. */
  function RankOfSuffix(tail: string): Option<int> {
    if tail == "" then Some(0)
    else if tail == "_array" then Some(1)
    else if tail == "_array_2D" then Some(2)
    else None
  }

  /** Reads a method suffix back into the (basic type, rank) it names. */
  function ParseSuffix(s: string): Option<(BasicType, int)> {
    var parts := SplitAtUnderscore(s);
    match (TypeOfName(parts.0), RankOfSuffix(parts.1))
    case (Some(t), Some(rank)) => Some((t, rank))
    case _ => None
  }

  /** No stem contains an underscore, and each stem reads back to its type. */
  lemma TypeNameRoundTrip(t: BasicType)
    ensures '_' !in TypeName(t)
    ensures TypeOfName(TypeName(t)) == Some(t)
  {
  }

  /** Every (type, rank) suffix reads back to that type and rank. */
  lemma SuffixRoundTrip(t: BasicType, rank: int)
    requires 0 <= rank <= 2
    ensures ParseSuffix(TypeName(t) + RankSuffix(rank)) == Some((t, rank))
  {
    TypeNameRoundTrip(t);
    SplitAtUnderscoreOfAppend(TypeName(t), RankSuffix(rank));
  }

  // ---------------------------------------------------------------------
  // The operations.
  // ---------------------------------------------------------------------

  /** The method suffix for a basic type at an array rank. The rank is
      checked first (a `ValueError`), then the type (a `TypeError`); a
      successful suffix names exactly the requested type and rank. */
  function MethodSuffix(arg: TypeArg, rank: int := 0): (r: Result<string>)
    ensures !(0 <= rank <= 2) ==> r == Err(ValueError(RankMessage))
    ensures 0 <= rank <= 2 && arg.NotBasic? ==> r == Err(TypeError(UnhandledMessage(arg.repr)))
    ensures 0 <= rank <= 2 && arg.Unhashable? ==> r == Err(TypeError(UnhashableMessage(arg.typeName)))
    ensures r.Ok? <==> 0 <= rank <= 2 && arg.Basic?
    ensures r.Ok? ==> ParseSuffix(r.value) == Some((arg.t, rank))
    ensures r.Ok? && rank == 0 ==> r.value == TypeName(arg.t)
    ensures r.Ok? && rank == 1 ==> r.value == TypeName(arg.t) + "_array"
    ensures r.Ok? && rank == 2 ==> r.value == TypeName(arg.t) + "_array_2D"
  {
    if !(0 <= rank <= 2) then Err(ValueError(RankMessage))
    else
      match arg
      case Unhashable(typeName) => Err(TypeError(UnhashableMessage(typeName)))
      case NotBasic(repr) => Err(TypeError(UnhandledMessage(repr)))
      case Basic(t) =>
        SuffixRoundTrip(t, rank);
        Ok(TypeName(t) + RankSuffix(rank))
  }

  /** Distinct (type, rank) pairs never share a method suffix. */
  lemma MethodSuffixInjective(a: TypeArg, i: int, b: TypeArg, j: int)
    requires MethodSuffix(a, i).Ok? && MethodSuffix(b, j).Ok?
    requires MethodSuffix(a, i).value == MethodSuffix(b, j).value
    ensures a == b && i == j
  {
  }

  /** Every one of the twelve basic types, unsigned ones included, has an
      accessor suffix at each of the ranks 0, 1 and 2. */
  lemma AllTypesHaveSuffixes(t: BasicType, rank: int)
    requires 0 <= rank <= 2
    ensures MethodSuffix(Basic(t), rank).Ok?
  {
  }

  const GetPrefix: string := "get_"
  const SetPrefix: string := "set_"

  /** The name of the getter for a type and rank: `get_` followed by the
      method suffix, failing exactly when (and as) the suffix fails. */
  function GetterName(arg: TypeArg, rank: int := 0): (r: Result<string>)
    ensures r.Err? <==> MethodSuffix(arg, rank).Err?
    ensures r.Err? ==> r.error == MethodSuffix(arg, rank).error
    ensures r.Ok? ==> |r.value| >= 4 && r.value[..4] == GetPrefix
    ensures r.Ok? ==> ParseSuffix(r.value[4..]) == Some((arg.t, rank))
  {
    var suffix :- MethodSuffix(arg, rank);
    assert (GetPrefix + suffix)[4..] == suffix;
    Ok(GetPrefix + suffix)
  }

  /** The name of the setter for a type and rank: `set_` followed by the
      method suffix, failing exactly when (and as) the suffix fails. */
  function SetterName(arg: TypeArg, rank: int := 0): (r: Result<string>)
    ensures r.Err? <==> MethodSuffix(arg, rank).Err?
    ensures r.Err? ==> r.error == MethodSuffix(arg, rank).error
    ensures r.Ok? ==> |r.value| >= 4 && r.value[..4] == SetPrefix
    ensures r.Ok? ==> ParseSuffix(r.value[4..]) == Some((arg.t, rank))
  {
    var suffix :- MethodSuffix(arg, rank);
    assert (SetPrefix + suffix)[4..] == suffix;
    Ok(SetPrefix + suffix)
  }

  /** A getter and a setter never share a name. */
  lemma AccessorNamesDistinct(a: TypeArg, i: int, b: TypeArg, j: int)
    requires a.Basic? && 0 <= i <= 2
    requires b.Basic? && 0 <= j <= 2
    ensures GetterName(a, i).Ok? && SetterName(b, j).Ok?
    ensures GetterName(a, i).value != SetterName(b, j).value
  {
  }
}
