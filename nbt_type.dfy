/** The 13 tag types of NBT, their wire ids and their classification flags
    (the enum `NBTType`). */
module NBTType {

  datatype TagType =
    | End | Byte | Short | Int | Long | Float | Double
    | ByteArray | String | List | Compound | IntArray | LongArray

  /** `values()`: the types in declaration order. */
  const Values: seq<TagType> :=
    [End, Byte, Short, Int, Long, Float, Double, ByteArray, String, List, Compound, IntArray, LongArray]

  /** `getId`: the wire id, equal to the declaration ordinal. */
  function Id(t: TagType): (id: nat)
    ensures id < |Values| && Values[id] == t
  {
    match t
    case End => 0
    case Byte => 1
    case Short => 2
    case Int => 3
    case Long => 4
    case Float => 5
    case Double => 6
    case ByteArray => 7
    case String => 8
    case List => 9
    case Compound => 10
    case IntArray => 11
    case LongArray => 12
  }

  /** `getById(byte)`: `values()[id]`, which throws for an id outside
      0..12 (negative bytes included); that failure is `None` here. */
  function GetById(id: int): (r: Option<TagType>)
    ensures r.Some? <==> 0 <= id < 13
    ensures r.Some? ==> Id(r.value) == id
  {
    if 0 <= id < |Values| then Some(Values[id]) else None
  }

  datatype Option<T> = None | Some(value: T)

  /** `getName` / `toString`. */
  function Name(t: TagType): string
  {
    match t
    case End => "TAG_End"
    case Byte => "TAG_Byte"
    case Short => "TAG_Short"
    case Int => "TAG_Int"
    case Long => "TAG_Long"
    case Float => "TAG_Float"
    case Double => "TAG_Double"
    case ByteArray => "TAG_Byte_Array"
    case String => "TAG_String"
    case List => "TAG_List"
    case Compound => "TAG_Compound"
    case IntArray => "TAG_Int_Array"
    case LongArray => "TAG_Long_Array"
  }

  /** The `primitive` column of the enum table. */
  predicate IsPrimitive(t: TagType)
  {
    match t
    case Byte | Short | Int | Long | Float | Double | String => true
    case _ => false
  }

  /** The `numeric` column of the enum table. */
  predicate IsNumeric(t: TagType)
  {
    match t
    case Byte | Short | Int | Long | Float | Double => true
    case _ => false
  }

  /** The `array` column of the enum table. */
  predicate IsArray(t: TagType)
  {
    match t
    case ByteArray | IntArray | LongArray => true
    case _ => false
  }

  /** The ids are 0..12 in declaration order: the id of the i-th value is i. */
  lemma IdsAreOrdinals(i: nat)
    requires i < |Values|
    ensures Id(Values[i]) == i
  {
  }

  /** `getById` inverts `getId`. */
  lemma GetByIdOfId(t: TagType)
    ensures GetById(Id(t)) == Some(t)
  {
  }

  /** Distinct types have distinct ids, so an id identifies its type. */
  lemma IdInjective(s: TagType, t: TagType)
    ensures Id(s) == Id(t) <==> s == t
  {
  }

  /** The primitive, numeric and array columns as sets of types. */
  lemma Classification(t: TagType)
    ensures IsPrimitive(t) <==> t in {Byte, Short, Int, Long, Float, Double, String}
    ensures IsNumeric(t) <==> t in {Byte, Short, Int, Long, Float, Double}
    ensures IsNumeric(t) <==> 1 <= Id(t) <= 6
    ensures IsArray(t) <==> t in {ByteArray, IntArray, LongArray}
    ensures IsNumeric(t) ==> IsPrimitive(t)
    ensures IsArray(t) ==> !IsPrimitive(t)
    ensures t in {End, List, Compound} <==> !IsPrimitive(t) && !IsArray(t)
  {
  }

  /** Every type has its own "TAG_..." name. */
  lemma NamesDistinct(s: TagType, t: TagType)
    ensures Name(s) == Name(t) <==> s == t
    ensures Name(t)[..4] == "TAG_"
  {
  }
}
