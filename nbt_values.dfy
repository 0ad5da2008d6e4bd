/** The variant classes whose source is part of this model: `NBTByte`,
    `NBTShort`, `NBTLong` (a mutable value with getters, a setter, `getType`,
    `toMSONString` and `clone`), `NBTByteArray` (a final array, its
    `Number[]` constructor and its `[B;...]` rendering) and `NBTEnd`; and
    `toMSONString` over the whole tree, where the variants not modelled here
    render through a given function. */
module NBTValues {
  import opened Bytes
  import opened NBTType
  import opened NBTTag
  import opened Text

  /** `Byte.toUnsignedInt`. */
  function UnsignedByte(v: i8): (u: nat)
    ensures u < 256
    ensures u == if v >= 0 then v else v + 256
  {
    if v >= 0 then v else v + 256
  }

  /** `NBTByte.toMSONString`: the unsigned value, then `b`. */
  function ByteText(v: i8): seq<char>
  {
    NatString(UnsignedByte(v)) + "b"
  }

  /** The rendering of a byte ends in `b`, never carries a sign, and reads
      back as the value taken modulo 256. */
  lemma ByteTextMeaning(v: i8)
    ensures var r := ByteText(v);
      && |r| >= 2 && r[|r| - 1] == 'b' && '-' !in r
      && AllDigits(r[..|r| - 1])
      && DigitsValue(r[..|r| - 1]) == (if v >= 0 then v else v + 256)
      && 0 <= DigitsValue(r[..|r| - 1]) < 256
  {
    var r := ByteText(v);
    var d := NatString(UnsignedByte(v));
    assert r[..|r| - 1] == d;
    NatStringValue(UnsignedByte(v));
    assert forall i :: 0 <= i < |d| ==> IsDigit(d[i]);
  }

  /** Two bytes render alike only if they are equal. */
  lemma ByteTextInjective(v: i8, w: i8)
    ensures ByteText(v) == ByteText(w) <==> v == w
  {
    ByteTextMeaning(v);
    ByteTextMeaning(w);
    if ByteText(v) == ByteText(w) {
      var r := ByteText(v);
      assert UnsignedByte(v) == DigitsValue(r[..|r| - 1]) == UnsignedByte(w);
    }
  }

  /** `NBTShort.toMSONString`: the signed value, then `s`. */
  function ShortText(v: i16): seq<char>
  {
    IntString(v) + "s"
  }

  /** `NBTLong.toMSONString`: the signed value, then `L`. */
  function LongText(v: i64): seq<char>
  {
    IntString(v) + "L"
  }

  /** The renderings of shorts and longs end in their suffix and read back
      as the value. */
  lemma SuffixedMeaning(v: int, suffix: char, r: seq<char>)
    requires r == IntString(v) + [suffix]
    ensures |r| >= 2 && r[|r| - 1] == suffix
    ensures r[..|r| - 1] == IntString(v) && SignedValue(r[..|r| - 1]) == v
  {
    assert r[..|r| - 1] == IntString(v);
    IntStringValue(v);
  }

  lemma ShortTextMeaning(v: i16)
    ensures var r := ShortText(v);
      |r| >= 2 && r[|r| - 1] == 's' && SignedValue(r[..|r| - 1]) == v
  {
    SuffixedMeaning(v, 's', ShortText(v));
  }

  lemma LongTextMeaning(v: i64)
    ensures var r := LongText(v);
      |r| >= 2 && r[|r| - 1] == 'L' && SignedValue(r[..|r| - 1]) == v
  {
    SuffixedMeaning(v, 'L', LongText(v));
  }

  /** One element of a byte array's rendering: the signed value, then `B`. */
  function ByteElementText(v: i8): seq<char>
  {
    IntString(v) + "B"
  }

  /** An element's rendering holds no comma, so the commas of the array's
      rendering are exactly its separators. */
  lemma ByteElementHasNoComma(v: i8)
    ensures ',' !in ByteElementText(v)
  {
    var d := IntString(v);
    if v < 0 {
      assert forall k :: 1 <= k < |d| ==> IsDigit(d[k]) by {
        assert forall k :: 0 <= k < |d| - 1 ==> IsDigit(d[1..][k]);
      }
    }
    assert forall k :: 0 <= k < |d| ==> d[k] != ',';
  }

  /** The elements' renderings, in array order. */
  function ByteElementTexts(a: seq<i8>): seq<seq<char>>
  {
    seq(|a|, i requires 0 <= i < |a| => ByteElementText(a[i]))
  }

  /** `NBTByteArray.toMSONString`: `[B;`, the elements separated by `,`,
      then `]`. */
  function ByteArrayText(a: seq<i8>): seq<char>
  {
    "[B;" + Join(ByteElementTexts(a), ",") + "]"
  }

  /** The frame of the rendering, and element `i` of the array is part `i`
      between the commas. */
  lemma ByteArrayTextMeaning(a: seq<i8>)
    ensures var r := ByteArrayText(a);
      && |r| >= 4 && r[..3] == "[B;" && r[|r| - 1] == ']'
      && (a == [] <==> r == "[B;]")
      && (a != [] ==> Split(r[3..|r| - 1], ',') == ByteElementTexts(a))
  {
    var r := ByteArrayText(a);
    var body := Join(ByteElementTexts(a), ",");
    assert r[3..|r| - 1] == body;
    if a != [] {
      forall i | 0 <= i < |a| ensures ',' !in ByteElementTexts(a)[i] {
        ByteElementHasNoComma(a[i]);
      }
      SplitJoin(ByteElementTexts(a), ',');
      assert |body| >= 1 by {
        JoinNonEmpty(ByteElementTexts(a), ",");
      }
    }
  }

  lemma {:induction false} JoinNonEmpty(parts: seq<seq<char>>, sep: seq<char>)
    requires |parts| >= 1 && |parts[0]| >= 1
    ensures |Join(parts, sep)| >= 1
    decreases |parts|
  {
    if |parts| > 1 {
      JoinNonEmpty(parts[..|parts| - 1], sep);
    }
  }

  /** `Number.byteValue()` of an integral number: its low 8 bits as a
      signed byte. */
  function ByteValue(n: int): (b: i8)
    ensures (b - n) % 256 == 0
  {
    var m := n % 256;
    if m >= 128 then m - 256 else m
  }

  /** `NBTEnd.toMSONString`. */
  const END_TEXT: seq<char> := "END"

  /** `NBTEnd.equals(obj)`: `obj instanceof NBTEnd`. */
  predicate EndEquals(obj: Tag)
  {
    obj.NBTEnd?
  }

  /** Every END object equals every other, `INSTANCE` and its clones
      included, and nothing else. */
  lemma EndEqualsMeaning(obj: Tag)
    ensures EndEquals(obj) <==> obj == INSTANCE
    ensures EndEquals(CloneEnd()) && TypeOf(INSTANCE) == End
  {
  }

  /** Where tag equality on END is `NBTEnd.equals`, a named END equals a
      named tag of the same name exactly when that one holds an END too. */
  lemma NamedEndsEqual(name: seq<byte>, t: Tag, tagEq: (Tag, Tag) -> bool)
    requires forall y :: tagEq(NBTEnd, y) == EndEquals(y)
    ensures NamedTagEquals(NamedTag(name, INSTANCE), NamedTag(name, t), tagEq) <==> t == NBTEnd
  {
    assert tagEq(NBTEnd, t) == EndEquals(t);
  }

  /** `toMSONString()` of any tag. `other` renders the variants whose
      classes are not modelled here: string, int, float, double, int array,
      long array, list and compound. */
  function MsonText(t: Tag, other: Tag -> seq<char>): seq<char>
  {
    match t
    case NBTEnd => END_TEXT
    case NBTByte(v) => ByteText(v)
    case NBTShort(v) => ShortText(v)
    case NBTLong(v) => LongText(v)
    case NBTByteArray(a) => ByteArrayText(a)
    case _ => other(t)
  }

  /** `NBTByte`: a mutable byte. */
  class ByteTag {
    var value: i8

    constructor(value: i8)
      ensures this.value == value
    {
      this.value := value;
    }

    /** `getValue` and `getByteValue`. */
    function GetByteValue(): (v: i8)
      reads this
      ensures v == value
    {
      value
    }

    method SetByteValue(value: i8)
      modifies this
      ensures this.value == value
    {
      this.value := value;
    }

    function GetType(): (ty: TagType)
      ensures ty == Byte
    {
      Byte
    }

    function ToMsonString(): (r: seq<char>)
      reads this
      ensures r == MsonText(AsTag(), _ => [])
    {
      ByteText(value)
    }

    /** The tag value this object holds. */
    function AsTag(): (t: Tag)
      reads this
      ensures TypeOf(t) == GetType() && t.NBTByte? && t.byteValue == value
    {
      NBTByte(value)
    }

    method Clone() returns (c: ByteTag)
      ensures fresh(c) && c.value == value
    {
      c := new ByteTag(value);
    }
  }

  /** `NBTShort`: a mutable short. */
  class ShortTag {
    var value: i16

    constructor(value: i16)
      ensures this.value == value
    {
      this.value := value;
    }

    /** `getValue` and `getShortValue`. */
    function GetShortValue(): (v: i16)
      reads this
      ensures v == value
    {
      value
    }

    method SetShortValue(value: i16)
      modifies this
      ensures this.value == value
    {
      this.value := value;
    }

    function GetType(): (ty: TagType)
      ensures ty == Short
    {
      Short
    }

    function ToMsonString(): (r: seq<char>)
      reads this
      ensures r == MsonText(AsTag(), _ => [])
    {
      ShortText(value)
    }

    function AsTag(): (t: Tag)
      reads this
      ensures TypeOf(t) == GetType() && t.NBTShort? && t.shortValue == value
    {
      NBTShort(value)
    }

    method Clone() returns (c: ShortTag)
      ensures fresh(c) && c.value == value
    {
      c := new ShortTag(value);
    }
  }

  /** `NBTLong`: a mutable long. */
  class LongTag {
    var value: i64

    constructor(value: i64)
      ensures this.value == value
    {
      this.value := value;
    }

    /** `getValue` and `getLongValue`. */
    function GetLongValue(): (v: i64)
      reads this
      ensures v == value
    {
      value
    }

    method SetLongValue(value: i64)
      modifies this
      ensures this.value == value
    {
      this.value := value;
    }

    function GetType(): (ty: TagType)
      ensures ty == Long
    {
      Long
    }

    function ToMsonString(): (r: seq<char>)
      reads this
      ensures r == MsonText(AsTag(), _ => [])
    {
      LongText(value)
    }

    function AsTag(): (t: Tag)
      reads this
      ensures TypeOf(t) == GetType() && t.NBTLong? && t.longValue == value
    {
      NBTLong(value)
    }

    method Clone() returns (c: LongTag)
      ensures fresh(c) && c.value == value
    {
      c := new LongTag(value);
    }
  }

  lemma Appended(o: seq<char>, gap: seq<char>, a: seq<char>, b: seq<char>, r: seq<char>)
    requires r == o + gap + a + b
    ensures r == o + gap + (a + b)
  {
  }

  /** `NBTByteArray`: a final reference to a byte array. */
  class ByteArrayTag {
    const value: array<i8>

    /** `NBTByteArray(byte[])` keeps the caller's array, not a copy. */
    constructor(value: array<i8>)
      ensures this.value == value
    {
      this.value := value;
    }

    /** `NBTByteArray(Number[])`: a new array whose element `i` is
        `numbers[i].byteValue()`. */
    constructor FromNumbers(numbers: seq<int>)
      ensures fresh(value) && value.Length == |numbers|
      ensures forall i :: 0 <= i < |numbers| ==> value[i] == ByteValue(numbers[i])
    {
      var a := new i8[|numbers|];
      var i := 0;
      while i < |numbers|
        invariant 0 <= i <= |numbers|
        invariant forall k :: 0 <= k < i ==> a[k] == ByteValue(numbers[k])
      {
        a[i] := ByteValue(numbers[i]);
        i := i + 1;
      }
      value := a;
    }

    /** `length()`. */
    function Length(): (n: nat)
      ensures n == value.Length
    {
      value.Length
    }

    function GetType(): (ty: TagType)
      ensures ty == ByteArray
    {
      ByteArray
    }

    function AsTag(): (t: Tag)
      reads value
      ensures TypeOf(t) == GetType() && t == NBTByteArray(value[..])
    {
      NBTByteArray(value[..])
    }

    /** The `StringBuilder` loop of `toMSONString`. */
    method ToMsonString() returns (r: seq<char>)
      ensures r == ByteArrayText(value[..])
    {
      ghost var a := value[..];
      ghost var parts := ByteElementTexts(a);
      var builder := "[B;";
      var i := 0;
      while i < value.Length
        invariant 0 <= i <= value.Length
        invariant builder == "[B;" + Join(parts[..i], ",")
      {
        ghost var o, gap := builder, [];
        if i != 0 {
          builder := builder + ",";
          gap := ",";
        }
        ghost var o' := builder;
        assert o' == o + gap;
        var digits := IntString(value[i]);
        assert parts[i] == digits + "B" by {
          assert a[i] == value[i];
        }
        builder := builder + digits + "B";
        Appended(o, gap, digits, "B", builder);
        JoinStep(parts, ",", i, "[B;", o, gap, builder);
        i := i + 1;
      }
      assert parts[..value.Length] == parts;
      r := builder + "]";
    }
  }
}
