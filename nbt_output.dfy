/** `NBTOutputStream`: encoding named tags as bytes.
    The functions below are the specification: each gives the bytes a
    write appends to the stream and whether it completed. A write that
    fails leaves in the stream what it had written up to the failure. The
    class `NBTOutputStream` at the end appends to an output buffer and is
    proved to append exactly these bytes. */
module NBTOutput {
  import opened Bytes
  import opened NBTType
  import opened NBTTag
  import opened NBTErrors

  /** What a write appended, and whether it completed. */
  datatype Written = Written(bytes: seq<byte>, outcome: Outcome)

  /** A write that always completes. */
  function Emit(b: seq<byte>): (w: Written)
    ensures w.bytes == b && w.outcome == Pass
  {
    Written(b, Pass)
  }

  /** Two writes in sequence: the second happens only if the first completed. */
  function Then(a: Written, b: Written): (w: Written)
    ensures a.outcome.Fail? ==> w == a
    ensures a.outcome == Pass ==> w == Written(a.bytes + b.bytes, b.outcome)
  {
    if a.outcome.Fail? then a else Written(a.bytes + b.bytes, b.outcome)
  }

  /** A Java `byte` as the wire byte `write` puts out: its two's-complement
      pattern. */
  function ByteOf(v: i8): (b: byte)
    ensures v >= 0 ==> b == v
    ensures v < 0 ==> b == v + 256
  {
    v % 256
  }

  /** `write(byte[])`: each Java byte as its unsigned wire byte. */
  function UnsignedBytes(a: seq<i8>): (r: seq<byte>)
    ensures |r| == |a|
    ensures forall i :: 0 <= i < |a| ==> r[i] == ByteOf(a[i])
  {
    seq(|a|, i requires 0 <= i < |a| => ByteOf(a[i]))
  }

  /** `writeInt` of every element of an int array, in order. */
  function IntsBytes(a: seq<i32>): (r: seq<byte>)
    ensures |r| == 4 * |a|
  {
    seq(4 * |a|, k requires 0 <= k < 4 * |a| => IntsByte(a, k))
  }

  /** Byte `k` of the int array's elements written one after the other. */
  function IntsByte(a: seq<i32>, k: nat): byte
    requires k < 4 * |a|
  {
    BigEndian(a[k / 4], INT_BYTES)[k % 4]
  }

  /** `writeLong` of every element of a long array, in order. */
  function LongsBytes(a: seq<i64>): (r: seq<byte>)
    ensures |r| == 8 * |a|
  {
    seq(8 * |a|, k requires 0 <= k < 8 * |a| => LongsByte(a, k))
  }

  /** Byte `k` of the long array's elements written one after the other. */
  function LongsByte(a: seq<i64>, k: nat): byte
    requires k < 8 * |a|
  {
    BigEndian(a[k / 8], LONG_BYTES)[k % 8]
  }

  /** `writeTagString` (and the name part of `writeNamedTag`): `writeShort`
      of the byte length, then the bytes. */
  function EncodeString(s: seq<byte>): (r: seq<byte>)
    ensures |r| == 2 + |s|
  {
    BigEndian(|s|, SHORT_BYTES) + s
  }

  /** The string's bytes follow its length prefix, and the prefix holds the
      length whenever it fits in 16 bits. `BigEndian(v, SHORT_BYTES)` is the
      low 16 bits of any `v`, which is what `writeShort` keeps. */
  lemma StringLayout(s: seq<byte>)
    ensures EncodeString(s)[2..] == s
    ensures |s| < 0x1_0000 ==> Unsigned(EncodeString(s)[..2]) == |s|
  {
    var r := EncodeString(s);
    assert r[..2] == BigEndian(|s|, SHORT_BYTES);
    Pow256Values();
    if |s| < 0x1_0000 {
      UnsignedRoundTrip(|s|, SHORT_BYTES);
    }
  }

  /** `writeNamedTag(name, tag)`: the type id, the name, then the payload.
      For END the id and the name are written before the failure. */
  function EncodeNamed(name: seq<byte>, t: Tag): (w: Written)
    ensures |w.bytes| >= 3 + |name|
    decreases t, 1
  {
    var header := [Id(TypeOf(t)) as byte] + EncodeString(name);
    if TypeOf(t) == End then Written(header, Fail(NamedEnd))
    else Then(Emit(header), EncodePayload(t))
  }

  /** Every named write starts with the type id and the name; a named END
      stops right there with `NamedEnd`. */
  lemma NamedLayout(name: seq<byte>, t: Tag)
    ensures EncodeNamed(name, t).bytes[..3 + |name|] == [Id(TypeOf(t)) as byte] + EncodeString(name)
    ensures TypeOf(t) == End <==> EncodeNamed(name, t) == Written([Id(End) as byte] + EncodeString(name), Fail(NamedEnd))
  {
    var header := [Id(TypeOf(t)) as byte] + EncodeString(name);
    if TypeOf(t) != End {
      assert EncodeNamed(name, t).bytes[..3 + |name|] == header;
      IdInjective(TypeOf(t), End);
      assert EncodeNamed(name, t).bytes[0] == Id(TypeOf(t)) != Id(End);
    }
  }

  /** `writeTag(tag)`: the payload alone. */
  function EncodePayload(t: Tag): (w: Written)
    decreases t, 0
  {
    match t
    case NBTEnd => Emit([])
    case NBTByte(v) => Emit(BigEndian(v, 1))
    case NBTShort(v) => Emit(BigEndian(v, SHORT_BYTES))
    case NBTInt(v) => Emit(BigEndian(v, INT_BYTES))
    case NBTLong(v) => Emit(BigEndian(v, LONG_BYTES))
    case NBTFloat(v) => Emit(BigEndian(v, INT_BYTES))
    case NBTDouble(v) => Emit(BigEndian(v, LONG_BYTES))
    case NBTByteArray(a) => Emit(BigEndian(|a|, INT_BYTES) + UnsignedBytes(a))
    case NBTString(s) => Emit(EncodeString(s))
    case NBTList(et, es) => Then(Emit([Id(et) as byte] + BigEndian(|es|, INT_BYTES)), EncodeElements(es, |es|))
    case NBTCompound(es) => Then(EncodeEntries(es, |es|), Emit([Id(End) as byte]))
    case NBTIntArray(a) => Emit(BigEndian(|a|, INT_BYTES) + IntsBytes(a))
    case NBTLongArray(a) => Emit(BigEndian(|a|, INT_BYTES) + LongsBytes(a))
  }

  /** The loop of `writeTagList` over the first `n` elements: each payload,
      with no name or type header. */
  function EncodeElements(es: seq<Tag>, n: nat): (w: Written)
    requires n <= |es|
    decreases es, n
  {
    if n == 0 then Emit([]) else Then(EncodeElements(es, n - 1), EncodePayload(es[n - 1]))
  }

  /** The loop of `writeTagCompound` over the first `n` entries, in
      iteration order, each as a named tag. */
  function EncodeEntries(es: seq<Entry>, n: nat): (w: Written)
    requires n <= |es|
    decreases es, n
  {
    if n == 0 then Emit([]) else Then(EncodeEntries(es, n - 1), EncodeNamed(es[n - 1].key, es[n - 1].value))
  }

  /** Once one of the first `k` elements fails, the loop over the first `n`
      writes nothing more. */
  lemma {:induction false} ElementsStopAt(es: seq<Tag>, k: nat, n: nat)
    requires k <= n <= |es|
    requires EncodeElements(es, k).outcome.Fail?
    ensures EncodeElements(es, n) == EncodeElements(es, k)
    decreases n
  {
    if k < n {
      ElementsStopAt(es, k, n - 1);
    }
  }

  /** The same for the entries of a compound. */
  lemma {:induction false} EntriesStopAt(es: seq<Entry>, k: nat, n: nat)
    requires k <= n <= |es|
    requires EncodeEntries(es, k).outcome.Fail?
    ensures EncodeEntries(es, n) == EncodeEntries(es, k)
    decreases n
  {
    if k < n {
      EntriesStopAt(es, k, n - 1);
    }
  }

  /** The bytes of the first `i + 1` ints are those of the first `i`, then
      the next int. */
  lemma IntsBytesNext(a: seq<i32>, i: nat)
    requires i < |a|
    ensures IntsBytes(a[..i + 1]) == IntsBytes(a[..i]) + BigEndian(a[i], INT_BYTES)
  {
    var l, r := IntsBytes(a[..i + 1]), IntsBytes(a[..i]) + BigEndian(a[i], INT_BYTES);
    forall k | 0 <= k < 4 * (i + 1) ensures l[k] == r[k] {
      var q, m := k / 4, k % 4;
      assert k == 4 * q + m;
      if k < 4 * i {
        assert q < i;
        assert l[k] == BigEndian(a[q], INT_BYTES)[m];
      } else {
        DivUnique(k, 4, i, k - 4 * i);
        assert l[k] == BigEndian(a[i], INT_BYTES)[k - 4 * i];
      }
    }
  }

  /** The bytes of the first `i + 1` longs are those of the first `i`, then
      the next long. */
  lemma LongsBytesNext(a: seq<i64>, i: nat)
    requires i < |a|
    ensures LongsBytes(a[..i + 1]) == LongsBytes(a[..i]) + BigEndian(a[i], LONG_BYTES)
  {
    var l, r := LongsBytes(a[..i + 1]), LongsBytes(a[..i]) + BigEndian(a[i], LONG_BYTES);
    forall k | 0 <= k < 8 * (i + 1) ensures l[k] == r[k] {
      var q, m := k / 8, k % 8;
      assert k == 8 * q + m;
      if k < 8 * i {
        assert q < i;
        assert l[k] == BigEndian(a[q], LONG_BYTES)[m];
      } else {
        DivUnique(k, 8, i, k - 8 * i);
        assert l[k] == BigEndian(a[i], LONG_BYTES)[k - 8 * i];
      }
    }
  }

  /** `(a + b) + c == a + (b + c)`. */
  lemma Concat(a: seq<byte>, b: seq<byte>, c: seq<byte>)
    ensures (a + b) + c == a + (b + c)
  {
  }

  /** The three writes `writeNamedTag` starts with put out the header of
      `EncodeNamed`. */
  lemma NamedHeader(name: seq<byte>, ty: TagType, o: seq<byte>, mid: seq<byte>)
    requires mid == o + BigEndian(Id(ty), 1) + BigEndian(|name|, SHORT_BYTES) + name
    ensures mid == o + ([Id(ty) as byte] + EncodeString(name))
  {
    var id := BigEndian(Id(ty), 1);
    BigEndianByte(Id(ty));
    Concat(o + id, BigEndian(|name|, SHORT_BYTES), name);
    Concat(o, id, EncodeString(name));
  }

  /** A named write is that header, then, except for END, the payload. */
  lemma NamedDone(name: seq<byte>, t: Tag, o: seq<byte>, mid: seq<byte>, after: seq<byte>)
    requires mid == o + BigEndian(Id(TypeOf(t)), 1) + BigEndian(|name|, SHORT_BYTES) + name
    ensures TypeOf(t) == End ==> mid == o + EncodeNamed(name, t).bytes && EncodeNamed(name, t).outcome == Fail(NamedEnd)
    ensures TypeOf(t) != End ==> EncodeNamed(name, t).outcome == EncodePayload(t).outcome
    ensures TypeOf(t) != End && after == mid + EncodePayload(t).bytes ==> after == o + EncodeNamed(name, t).bytes
  {
    var header := [Id(TypeOf(t)) as byte] + EncodeString(name);
    NamedHeader(name, TypeOf(t), o, mid);
    var w := EncodeNamed(name, t);
    if TypeOf(t) == End {
      assert w == Written(header, Fail(NamedEnd));
    } else {
      var pl := EncodePayload(t);
      assert w == Written(header + pl.bytes, pl.outcome);
      Concat(o, header, pl.bytes);
    }
  }

  /** One iteration of `writeTagList`'s loop after the ones before it
      completed: its payload is appended. */
  lemma ElementsAppend(es: seq<Tag>, i: nat, start: seq<byte>, before: seq<byte>, after: seq<byte>, r: Outcome)
    requires i < |es| && EncodeElements(es, i).outcome == Pass
    requires before == start + EncodeElements(es, i).bytes
    requires after == before + EncodePayload(es[i]).bytes && r == EncodePayload(es[i]).outcome
    ensures after == start + EncodeElements(es, i + 1).bytes && r == EncodeElements(es, i + 1).outcome
  {
  }

  /** One iteration of `writeTagCompound`'s loop after the ones before it
      completed: its named tag is appended. */
  lemma EntriesAppend(es: seq<Entry>, i: nat, start: seq<byte>, before: seq<byte>, after: seq<byte>, r: Outcome)
    requires i < |es| && EncodeEntries(es, i).outcome == Pass
    requires before == start + EncodeEntries(es, i).bytes
    requires after == before + EncodeNamed(es[i].key, es[i].value).bytes && r == EncodeNamed(es[i].key, es[i].value).outcome
    ensures after == start + EncodeEntries(es, i + 1).bytes && r == EncodeEntries(es, i + 1).outcome
  {
  }

  /** A list payload is its header, then the loop over its elements. */
  lemma ListDone(t: Tag, o: seq<byte>, start: seq<byte>, after: seq<byte>)
    requires t.NBTList?
    requires start == o + BigEndian(Id(t.elementType), 1) + BigEndian(|t.elements|, INT_BYTES)
    requires after == start + EncodeElements(t.elements, |t.elements|).bytes
    ensures after == o + EncodePayload(t).bytes
    ensures EncodePayload(t).outcome == EncodeElements(t.elements, |t.elements|).outcome
  {
    var id := BigEndian(Id(t.elementType), 1);
    var len := BigEndian(|t.elements|, INT_BYTES);
    var ew := EncodeElements(t.elements, |t.elements|);
    ListPayload(t.elementType, t.elements);
    Concat(o, id, len);
    Concat(o, id + len, ew.bytes);
  }

  lemma ListPayload(et: TagType, es: seq<Tag>)
    ensures EncodePayload(NBTList(et, es)).bytes
      == BigEndian(Id(et), 1) + BigEndian(|es|, INT_BYTES) + EncodeElements(es, |es|).bytes
    ensures EncodePayload(NBTList(et, es)).outcome == EncodeElements(es, |es|).outcome
  {
    var id := BigEndian(Id(et), 1);
    BigEndianByte(Id(et));
    var h := [Id(et) as byte] + BigEndian(|es|, INT_BYTES);
    assert h == id + BigEndian(|es|, INT_BYTES);
    assert EncodePayload(NBTList(et, es)).bytes == h + EncodeElements(es, |es|).bytes;
  }

  /** A compound payload is the loop over its entries, then END unless an
      entry failed. */
  lemma CompoundDone(t: Tag, o: seq<byte>, after: seq<byte>)
    requires t.NBTCompound?
    requires after == o + EncodeEntries(t.entries, |t.entries|).bytes
    ensures EncodeEntries(t.entries, |t.entries|).outcome.Fail? ==>
      after == o + EncodePayload(t).bytes && EncodePayload(t).outcome == EncodeEntries(t.entries, |t.entries|).outcome
    ensures EncodeEntries(t.entries, |t.entries|).outcome == Pass ==>
      after + BigEndian(Id(End), 1) == o + EncodePayload(t).bytes && EncodePayload(t).outcome == Pass
  {
    BigEndianByte(Id(End));
  }

  /** `NBTOutputStream` over an output stream whose bytes so far are `out`.
      Every write method appends to `out` exactly the bytes its
      specification function gives, and reports that function's outcome. */
  class NBTOutputStream {
    var out: seq<byte>

    constructor ()
      ensures out == []
    {
      out := [];
    }

    /** `writeByte`, `writeShort`, `writeInt` and `writeLong`: the low `n`
        bytes of `v`, most significant first. */
    method WriteBigEndian(v: int, n: nat)
      modifies this
      ensures out == old(out) + BigEndian(v, n)
    {
      out := out + BigEndian(v, n);
    }

    /** `write(byte[])`. */
    method Write(b: seq<byte>)
      modifies this
      ensures out == old(out) + b
    {
      out := out + b;
    }

    /** `writeNamedTag(name, tag)`: the type id, the name length and bytes,
        then (unless the tag is END, which fails) the payload. */
    method WriteNamedTag(name: seq<byte>, tag: Tag) returns (r: Outcome)
      modifies this
      ensures out == old(out) + EncodeNamed(name, tag).bytes
      ensures r == EncodeNamed(name, tag).outcome
      decreases tag, 3
    {
      ghost var before := out;
      var typeId := Id(TypeOf(tag));
      WriteBigEndian(typeId, 1);
      WriteBigEndian(|name|, SHORT_BYTES);
      Write(name);
      ghost var mid := out;
      IdInjective(TypeOf(tag), End);
      if typeId == Id(End) {
        NamedDone(name, tag, before, mid, mid);
        return Fail(NamedEnd);
      }
      r := WriteTag(tag);
      NamedDone(name, tag, before, mid, out);
    }

    /** `writeNamedTag(NBTNamedTag)`. */
    method WriteNamed(nt: NamedTag) returns (r: Outcome)
      modifies this
      ensures out == old(out) + EncodeNamed(nt.name, nt.tag).bytes
      ensures r == EncodeNamed(nt.name, nt.tag).outcome
    {
      r := WriteNamedTag(nt.name, nt.tag);
    }

    /** `writeTag(tag)`: the payload, dispatched on the tag's type. */
    method WriteTag(tag: Tag) returns (r: Outcome)
      modifies this
      ensures out == old(out) + EncodePayload(tag).bytes
      ensures r == EncodePayload(tag).outcome
      decreases tag, 2
    {
      r := Pass;
      match tag
      case NBTEnd =>
      case NBTByte(v) => WriteBigEndian(v, 1);
      case NBTShort(v) => WriteBigEndian(v, SHORT_BYTES);
      case NBTInt(v) => WriteBigEndian(v, INT_BYTES);
      case NBTLong(v) => WriteBigEndian(v, LONG_BYTES);
      case NBTFloat(v) => WriteBigEndian(v, INT_BYTES);
      case NBTDouble(v) => WriteBigEndian(v, LONG_BYTES);
      case NBTByteArray(a) => WriteTagByteArray(a);
      case NBTString(s) => WriteTagString(s);
      case NBTList(et, es) => r := WriteTagList(tag);
      case NBTCompound(es) => r := WriteTagCompound(tag);
      case NBTIntArray(a) => WriteTagIntArray(a);
      case NBTLongArray(a) => WriteTagLongArray(a);
    }

    /** `writeTagString`: the byte length as a short, then the bytes. */
    method WriteTagString(s: seq<byte>)
      modifies this
      ensures out == old(out) + EncodeString(s)
    {
      WriteBigEndian(|s|, SHORT_BYTES);
      Write(s);
    }

    /** `writeTagByteArray`: the length as an int, then the bytes. */
    method WriteTagByteArray(a: seq<i8>)
      modifies this
      ensures out == old(out) + BigEndian(|a|, INT_BYTES) + UnsignedBytes(a)
    {
      WriteBigEndian(|a|, INT_BYTES);
      Write(UnsignedBytes(a));
    }

    /** `writeTagList`: the element type id, the size, then each element's
        payload; the first failing element ends the write. */
    method WriteTagList(tag: Tag) returns (r: Outcome)
      requires tag.NBTList?
      modifies this
      ensures out == old(out) + EncodePayload(tag).bytes
      ensures r == EncodePayload(tag).outcome
      decreases tag, 1
    {
      var es := tag.elements;
      WriteBigEndian(Id(tag.elementType), 1);
      WriteBigEndian(|es|, INT_BYTES);
      ghost var start := out;
      for i := 0 to |es|
        invariant out == start + EncodeElements(es, i).bytes
        invariant EncodeElements(es, i).outcome == Pass
      {
        ghost var before := out;
        r := WriteTag(es[i]);
        ElementsAppend(es, i, start, before, out, r);
        if r.Fail? {
          ElementsStopAt(es, i + 1, |es|);
          ListDone(tag, old(out), start, out);
          return;
        }
      }
      ListDone(tag, old(out), start, out);
      r := Pass;
    }

    /** `writeTagCompound`: every entry as a named tag in iteration order,
        then the END id; the first failing entry ends the write. */
    method WriteTagCompound(tag: Tag) returns (r: Outcome)
      requires tag.NBTCompound?
      modifies this
      ensures out == old(out) + EncodePayload(tag).bytes
      ensures r == EncodePayload(tag).outcome
      decreases tag, 1
    {
      var es := tag.entries;
      ghost var start := out;
      for i := 0 to |es|
        invariant out == start + EncodeEntries(es, i).bytes
        invariant EncodeEntries(es, i).outcome == Pass
      {
        ghost var before := out;
        r := WriteNamedTag(es[i].key, es[i].value);
        EntriesAppend(es, i, start, before, out, r);
        if r.Fail? {
          EntriesStopAt(es, i + 1, |es|);
          CompoundDone(tag, start, out);
          return;
        }
      }
      CompoundDone(tag, start, out);
      WriteBigEndian(Id(End), 1);
      r := Pass;
    }

    /** `writeTagIntArray`: the length, then each element with `writeInt`. */
    method WriteTagIntArray(a: seq<i32>)
      modifies this
      ensures out == old(out) + BigEndian(|a|, INT_BYTES) + IntsBytes(a)
    {
      WriteBigEndian(|a|, INT_BYTES);
      ghost var start := out;
      for i := 0 to |a|
        invariant out == start + IntsBytes(a[..i])
      {
        IntsBytesNext(a, i);
        WriteBigEndian(a[i], INT_BYTES);
      }
      assert a[..|a|] == a;
    }

    /** `writeTagLongArray`: the length, then each element with `writeLong`. */
    method WriteTagLongArray(a: seq<i64>)
      modifies this
      ensures out == old(out) + BigEndian(|a|, INT_BYTES) + LongsBytes(a)
    {
      WriteBigEndian(|a|, INT_BYTES);
      ghost var start := out;
      for i := 0 to |a|
        invariant out == start + LongsBytes(a[..i])
      {
        LongsBytesNext(a, i);
        WriteBigEndian(a[i], LONG_BYTES);
      }
      assert a[..|a|] == a;
    }
  }
}
