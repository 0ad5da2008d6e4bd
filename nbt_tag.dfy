/** The tag tree (`NBTTag` and its variants), named tags (`NBTNamedTag`)
    and the compound's key-to-tag mapping. Names and string payloads are
    kept as the UTF-8 bytes that travel on the wire. */
module NBTTag {
  import opened Bytes
  import opened NBTType

  /** One constructor per variant class. FLOAT and DOUBLE carry their
      IEEE-754 bit patterns. */
  datatype Tag =
    | NBTEnd
    | NBTByte(byteValue: i8)
    | NBTShort(shortValue: i16)
    | NBTInt(intValue: i32)
    | NBTLong(longValue: i64)
    | NBTFloat(floatBits: u32)
    | NBTDouble(doubleBits: u64)
    | NBTByteArray(bytes: seq<i8>)
    | NBTString(text: seq<byte>)
    | NBTList(elementType: TagType, elements: seq<Tag>)
    | NBTCompound(entries: seq<Entry>)
    | NBTIntArray(ints: seq<i32>)
    | NBTLongArray(longs: seq<i64>)

  /** A compound entry, in the compound's iteration order. */
  datatype Entry = Entry(key: seq<byte>, value: Tag)

  /** `NBTNamedTag`: an immutable (name, tag) pair. */
  datatype NamedTag = NamedTag(name: seq<byte>, tag: Tag)

  /** `NBTEnd.INSTANCE`, the only END value. */
  const INSTANCE: Tag := NBTEnd

  /** `getType()` of every variant. */
  function TypeOf(t: Tag): (ty: TagType)
    ensures ty == End <==> t == NBTEnd
  {
    match t
    case NBTEnd => End
    case NBTByte(_) => Byte
    case NBTShort(_) => Short
    case NBTInt(_) => Int
    case NBTLong(_) => Long
    case NBTFloat(_) => Float
    case NBTDouble(_) => Double
    case NBTByteArray(_) => ByteArray
    case NBTString(_) => String
    case NBTList(_, _) => List
    case NBTCompound(_) => Compound
    case NBTIntArray(_) => IntArray
    case NBTLongArray(_) => LongArray
  }

  /** The keys of a compound, in iteration order. */
  function Keys(es: seq<Entry>): (ks: seq<seq<byte>>)
    ensures |ks| == |es|
    ensures forall i :: 0 <= i < |es| ==> ks[i] == es[i].key
  {
    if es == [] then [] else Keys(es[..|es| - 1]) + [es[|es| - 1].key]
  }

  predicate DistinctKeys(es: seq<Entry>)
  {
    forall i, j :: 0 <= i < j < |es| ==> es[i].key != es[j].key
  }

  /** The position of `key` in the compound, if it is there. */
  function IndexOf(es: seq<Entry>, key: seq<byte>): (r: Option<nat>)
    ensures r.None? <==> forall i :: 0 <= i < |es| ==> es[i].key != key
    ensures r.Some? ==> r.value < |es| && es[r.value].key == key
    ensures r.Some? ==> forall i :: 0 <= i < r.value ==> es[i].key != key
  {
    if es == [] then None
    else if es[0].key == key then Some(0)
    else match IndexOf(es[1..], key)
      case None => None
      case Some(i) => Some(i + 1)
  }

  /** `Map.get`. */
  function Get(es: seq<Entry>, key: seq<byte>): Option<Tag>
  {
    match IndexOf(es, key)
    case None => None
    case Some(i) => Some(es[i].value)
  }

  /** `Map.put` on an insertion-ordered map: a key already present keeps its
      position and gets the new value; a new key goes to the end. */
  function Put(es: seq<Entry>, key: seq<byte>, value: Tag): (r: seq<Entry>)
    ensures |r| == |es| || r == es + [Entry(key, value)]
  {
    match IndexOf(es, key)
    case None => es + [Entry(key, value)]
    case Some(i) => es[i := Entry(key, value)]
  }

  /** After `put`, the key maps to the new value and every other key to
      what it mapped to before. */
  lemma PutGet(es: seq<Entry>, key: seq<byte>, value: Tag)
    ensures Get(Put(es, key, value), key) == Some(value)
    ensures forall k :: k != key ==> Get(Put(es, key, value), k) == Get(es, k)
  {
    var r := Put(es, key, value);
    match IndexOf(es, key)
    case None =>
      assert IndexOf(r, key) == Some(|es|) by { IndexOfAppend(es, key, value, key); }
      forall k | k != key ensures Get(r, k) == Get(es, k) {
        IndexOfAppend(es, key, value, k);
      }
    case Some(i) =>
      assert IndexOf(r, key) == Some(i) by { IndexOfReplace(es, i, value, key); }
      forall k | k != key ensures Get(r, k) == Get(es, k) {
        IndexOfReplace(es, i, value, k);
      }
  }

  /** A new key is appended; a key already present keeps its position, so
      the order of the keys does not change. */
  lemma PutOrder(es: seq<Entry>, key: seq<byte>, value: Tag)
    ensures Get(es, key).None? ==> Put(es, key, value) == es + [Entry(key, value)]
    ensures Get(es, key).Some? ==> |Put(es, key, value)| == |es| && Keys(Put(es, key, value)) == Keys(es)
  {
  }

  /** `put` keeps the keys distinct. */
  lemma PutDistinct(es: seq<Entry>, key: seq<byte>, value: Tag)
    requires DistinctKeys(es)
    ensures DistinctKeys(Put(es, key, value))
  {
  }

  lemma {:induction false} IndexOfAppend(es: seq<Entry>, key: seq<byte>, value: Tag, k: seq<byte>)
    ensures IndexOf(es + [Entry(key, value)], k) ==
      if IndexOf(es, k).Some? then IndexOf(es, k)
      else if k == key then Some(|es|) else None
  {
    var r := es + [Entry(key, value)];
    if es != [] {
      assert r[1..] == es[1..] + [Entry(key, value)];
      IndexOfAppend(es[1..], key, value, k);
    }
  }

  lemma {:induction false} IndexOfReplace(es: seq<Entry>, i: nat, value: Tag, k: seq<byte>)
    requires i < |es|
    ensures var r := es[i := Entry(es[i].key, value)];
      IndexOf(r, k) == IndexOf(es, k)
  {
    var r := es[i := Entry(es[i].key, value)];
    assert forall j :: 0 <= j < |r| ==> r[j].key == es[j].key;
  }

  /** The structural invariants the binary codec relies on, and that
      `NBTList`/`NBTCompound` are built to keep: every list element has the
      declared element type, no compound maps a key to END, compound keys
      are unique, and strings, names and sequence lengths fit the widths of
      the length prefixes that precede them on the wire. */
  predicate WellFormed(t: Tag)
  {
    match t
    case NBTEnd => false
    case NBTByteArray(a) => |a| < 0x8000_0000
    case NBTString(s) => |s| < 0x1_0000
    case NBTIntArray(a) => |a| < 0x8000_0000
    case NBTLongArray(a) => |a| < 0x8000_0000
    case NBTList(et, es) =>
      && |es| < 0x8000_0000
      && forall i :: 0 <= i < |es| ==> TypeOf(es[i]) == et && WellFormed(es[i])
    case NBTCompound(es) =>
      && DistinctKeys(es)
      && forall i :: 0 <= i < |es| ==> |es[i].key| < 0x1_0000 && WellFormed(es[i].value)
    case _ => true
  }

  predicate WellFormedNamed(nt: NamedTag)
  {
    |nt.name| < 0x1_0000 && WellFormed(nt.tag)
  }

  /** A well-formed tree is not END, and a well-formed non-empty list is
      not declared END (its first element has the declared type). */
  lemma WellFormedNotEnd(t: Tag)
    requires WellFormed(t)
    ensures TypeOf(t) != End
    ensures t.NBTList? && |t.elements| > 0 ==> TypeOf(t.elements[0]) == t.elementType != End
  {
  }

  /** `NBTNamedTag.equals(NBTNamedTag)`: the names are equal and the tags
      are equal under `tagEq`, the `equals` of the tag's own class. Tags are
      values here, so that relation is a parameter: the object identity that
      most tag classes inherit from `Object` has no counterpart among
      values. */
  predicate NamedTagEquals(a: NamedTag, b: NamedTag, tagEq: (Tag, Tag) -> bool)
  {
    a.name == b.name && tagEq(a.tag, b.tag)
  }

  /** Named-tag equality is reflexive, symmetric and transitive wherever tag
      equality is, and two different names are never equal. */
  lemma NamedTagEqualsLaws(a: NamedTag, b: NamedTag, c: NamedTag, tagEq: (Tag, Tag) -> bool)
    ensures tagEq(a.tag, a.tag) ==> NamedTagEquals(a, a, tagEq)
    ensures (tagEq(a.tag, b.tag) <==> tagEq(b.tag, a.tag)) ==>
      (NamedTagEquals(a, b, tagEq) <==> NamedTagEquals(b, a, tagEq))
    ensures (tagEq(a.tag, b.tag) && tagEq(b.tag, c.tag) ==> tagEq(a.tag, c.tag)) ==>
      (NamedTagEquals(a, b, tagEq) && NamedTagEquals(b, c, tagEq) ==> NamedTagEquals(a, c, tagEq))
    ensures a.name != b.name ==> !NamedTagEquals(a, b, tagEq)
  {
  }

  /** `NBTEnd.clone()`: a new object, equal to `INSTANCE` under
      `NBTEnd.equals`, which holds for any two END objects. */
  function CloneEnd(): (t: Tag)
    ensures t == INSTANCE && TypeOf(t) == End
  {
    NBTEnd
  }
}
