/** The binary codec round trip: what `NBTOutputStream` writes for a
    well-formed tree, `NBTInputStream` reads back as the same tree, at any
    position of a larger stream, and the error cases of both directions. */
module NBTRoundTrip {
  import opened Bytes
  import opened NBTType
  import opened NBTTag
  import opened NBTErrors
  import opened NBTInput
  import opened NBTOutput

  /** The stream `s` holds the bytes `e` at position `p`. */
  predicate At(s: seq<byte>, p: nat, e: seq<byte>)
  {
    p + |e| <= |s| && s[p..p + |e|] == e
  }

  /** `readTag(ty, d)` at `p` reads `t` and stops at `q`. */
  predicate PayloadReads(s: seq<byte>, p: nat, ty: TagType, d: nat, t: Tag, q: nat)
  {
    p <= |s| && DecodePayload(s, p, ty, d) == Ok(Parsed(t, q))
  }

  /** `readNamedTag(d)` at `p` reads `nt` and stops at `q`. */
  predicate NamedReads(s: seq<byte>, p: nat, d: nat, nt: NamedTag, q: nat)
  {
    p <= |s| && DecodeNamed(s, p, d) == Ok(Parsed(Some(nt), q))
  }

  /** `n` iterations of `readTagList`'s loop at `p` read `es` and stop at `q`. */
  predicate ElementsRead(s: seq<byte>, p: nat, et: TagType, d: nat, n: nat, es: seq<Tag>, q: nat)
  {
    p <= |s| && DecodeElements(s, p, et, d, n) == Ok(Parsed(es, q))
  }

  /** `readTagCompound`'s loop at `p`, with `acc` put so far, ends with the
      entries `es` and stops at `q`. */
  predicate EntriesRead(s: seq<byte>, p: nat, d: nat, acc: seq<Entry>, es: seq<Entry>, q: nat)
  {
    p <= |s| && DecodeEntries(s, p, d, acc) == Ok(Parsed(es, q))
  }

  lemma AtSlice(s: seq<byte>, p: nat, e: seq<byte>, k: nat, m: nat)
    requires At(s, p, e) && k <= m <= |e|
    ensures s[p + k..p + m] == e[k..m]
  {
    forall j | 0 <= j < m - k ensures s[p + k..p + m][j] == e[k..m][j] {
      assert s[p..p + |e|][k + j] == e[k + j];
    }
  }

  lemma AtSplit(s: seq<byte>, p: nat, a: seq<byte>, b: seq<byte>)
    requires At(s, p, a + b)
    ensures At(s, p, a) && At(s, p + |a|, b)
  {
    AtSlice(s, p, a + b, 0, |a|);
    AtSlice(s, p, a + b, |a|, |a| + |b|);
    assert (a + b)[..|a|] == a;
    assert (a + b)[|a|..] == b;
  }

  // ---- Encoding a well-formed tree completes ----

  lemma {:induction false} PayloadPasses(t: Tag)
    requires WellFormed(t)
    ensures EncodePayload(t).outcome == Pass
    decreases t, 0
  {
    match t
    case NBTList(et, es) => ElementsPass(es, |es|);
    case NBTCompound(es) => EntriesPass(es, |es|);
    case _ =>
  }

  lemma {:induction false} NamedPasses(name: seq<byte>, t: Tag)
    requires WellFormed(t)
    ensures EncodeNamed(name, t).outcome == Pass
    decreases t, 1
  {
    WellFormedNotEnd(t);
    PayloadPasses(t);
  }

  lemma {:induction false} ElementsPass(es: seq<Tag>, n: nat)
    requires n <= |es|
    requires forall i :: 0 <= i < |es| ==> WellFormed(es[i])
    ensures EncodeElements(es, n).outcome == Pass
    decreases es, n
  {
    if n > 0 {
      ElementsPass(es, n - 1);
      PayloadPasses(es[n - 1]);
    }
  }

  lemma {:induction false} EntriesPass(es: seq<Entry>, n: nat)
    requires n <= |es|
    requires forall i :: 0 <= i < |es| ==> WellFormed(es[i].value)
    ensures EncodeEntries(es, n).outcome == Pass
    decreases es, n
  {
    if n > 0 {
      EntriesPass(es, n - 1);
      NamedPasses(es[n - 1].key, es[n - 1].value);
    }
  }

  // ---- Fixed-width values and arrays ----

  lemma SignedOfSmallByte(b: byte)
    requires b < 128
    ensures ToI8(b) == b && Signed([b]) == b
  {
  }

  lemma SignedBytesOfUnsigned(a: seq<i8>)
    ensures SignedBytes(UnsignedBytes(a)) == a
  {
    var r := SignedBytes(UnsignedBytes(a));
    forall i | 0 <= i < |a| ensures r[i] == a[i] {
      assert r[i] == ToI8(ByteOf(a[i]));
    }
  }

  /** The `i`-th value of an int array occupies bytes `4 * i` to `4 * i + 4`. */
  lemma IntsBytesAt(a: seq<i32>, i: nat)
    requires i < |a|
    ensures IntsBytes(a)[4 * i..4 * i + 4] == BigEndian(a[i], INT_BYTES)
  {
    forall j | 0 <= j < 4 ensures IntsBytes(a)[4 * i + j] == BigEndian(a[i], INT_BYTES)[j] {
      DivUnique(4 * i + j, 4, i, j);
    }
  }

  /** The `i`-th value of a long array occupies bytes `8 * i` to `8 * i + 8`. */
  lemma LongsBytesAt(a: seq<i64>, i: nat)
    requires i < |a|
    ensures LongsBytes(a)[8 * i..8 * i + 8] == BigEndian(a[i], LONG_BYTES)
  {
    forall j | 0 <= j < 8 ensures LongsBytes(a)[8 * i + j] == BigEndian(a[i], LONG_BYTES)[j] {
      DivUnique(8 * i + j, 8, i, j);
    }
  }

  /** A value written big-endian at an offset of `e` reads back signed. */
  lemma ValueAt(e: seq<byte>, s: seq<byte>, p: nat, k: nat, v: int, w: nat)
    requires w >= 1 && -128 * Pow256(w - 1) <= v < 128 * Pow256(w - 1)
    requires At(s, p, e) && k + w <= |e| && e[k..k + w] == BigEndian(v, w)
    ensures Signed(s[p + k..p + k + w]) == v
  {
    AtSlice(s, p, e, k, k + w);
    SignedBigEndian(v, w);
  }

  /** The i32 values written one after the other in `e` read back as
      those values. */
  lemma IntsAtOf(e: seq<byte>, a: seq<i32>, s: seq<byte>, p: nat)
    requires At(s, p, e) && |e| == 4 * |a|
    requires forall i :: 0 <= i < |a| ==> e[4 * i..4 * i + 4] == BigEndian(a[i], INT_BYTES)
    ensures IntsAt(s, p, |a|) == a
  {
    Pow256Values();
    forall i | 0 <= i < |a| ensures IntsAt(s, p, |a|)[i] == a[i] {
      ValueAt(e, s, p, 4 * i, a[i], INT_BYTES);
    }
  }

  /** The i64 values written one after the other in `e` read back as
      those values. */
  lemma LongsAtOf(e: seq<byte>, a: seq<i64>, s: seq<byte>, p: nat)
    requires At(s, p, e) && |e| == 8 * |a|
    requires forall i :: 0 <= i < |a| ==> e[8 * i..8 * i + 8] == BigEndian(a[i], LONG_BYTES)
    ensures LongsAt(s, p, |a|) == a
  {
    Pow256Values();
    forall i | 0 <= i < |a| ensures LongsAt(s, p, |a|)[i] == a[i] {
      ValueAt(e, s, p, 8 * i, a[i], LONG_BYTES);
    }
  }

  /** An i32 length prefix reads back as the length. */
  lemma LengthPrefix(n: nat, s: seq<byte>, p: nat)
    requires n < 0x8000_0000
    requires p + 4 <= |s| && s[p..p + 4] == BigEndian(n, INT_BYTES)
    ensures Signed(s[p..p + 4]) == n
  {
    Pow256Values();
    SignedBigEndian(n, INT_BYTES);
  }

  lemma StringRoundTrip(x: seq<byte>, s: seq<byte>, p: nat)
    requires |x| < 0x1_0000
    requires At(s, p, EncodeString(x))
    ensures DecodeString(s, p) == Ok(Parsed(x, p + 2 + |x|))
  {
    var e := EncodeString(x);
    StringLayout(x);
    assert e == e[..2] + e[2..];
    AtSplit(s, p, e[..2], e[2..]);
  }

  /** The fixed-width payloads (BYTE to DOUBLE). */
  lemma ScalarRoundTrip(t: Tag, s: seq<byte>, p: nat, d: nat)
    requires t.NBTByte? || t.NBTShort? || t.NBTInt? || t.NBTLong? || t.NBTFloat? || t.NBTDouble?
    requires At(s, p, EncodePayload(t).bytes)
    ensures PayloadReads(s, p, TypeOf(t), d, t, p + |EncodePayload(t).bytes|)
  {
    Pow256Values();
    match t
    case NBTByte(v) => SignedBigEndian(v, 1);
    case NBTShort(v) => SignedBigEndian(v, SHORT_BYTES);
    case NBTInt(v) => SignedBigEndian(v, INT_BYTES);
    case NBTLong(v) => SignedBigEndian(v, LONG_BYTES);
    case NBTFloat(v) => UnsignedRoundTrip(v, INT_BYTES);
    case NBTDouble(v) => UnsignedRoundTrip(v, LONG_BYTES);
  }

  lemma ByteArrayRoundTrip(a: seq<i8>, s: seq<byte>, p: nat)
    requires |a| < 0x8000_0000
    requires At(s, p, BigEndian(|a|, INT_BYTES) + UnsignedBytes(a))
    ensures DecodeByteArray(s, p) == Ok(Parsed(NBTByteArray(a), p + 4 + |a|))
  {
    AtSplit(s, p, BigEndian(|a|, INT_BYTES), UnsignedBytes(a));
    LengthPrefix(|a|, s, p);
    SignedBytesOfUnsigned(a);
  }

  lemma IntArrayRoundTrip(a: seq<i32>, s: seq<byte>, p: nat)
    requires |a| < 0x8000_0000
    requires At(s, p, BigEndian(|a|, INT_BYTES) + IntsBytes(a))
    ensures DecodeIntArray(s, p) == Ok(Parsed(NBTIntArray(a), p + 4 + 4 * |a|))
  {
    var e := IntsBytes(a);
    AtSplit(s, p, BigEndian(|a|, INT_BYTES), e);
    LengthPrefix(|a|, s, p);
    forall i | 0 <= i < |a| ensures e[4 * i..4 * i + 4] == BigEndian(a[i], INT_BYTES) {
      IntsBytesAt(a, i);
    }
    IntsAtOf(e, a, s, p + 4);
  }

  lemma LongArrayRoundTrip(a: seq<i64>, s: seq<byte>, p: nat)
    requires |a| < 0x8000_0000
    requires At(s, p, BigEndian(|a|, INT_BYTES) + LongsBytes(a))
    ensures DecodeLongArray(s, p) == Ok(Parsed(NBTLongArray(a), p + 4 + 8 * |a|))
  {
    var e := LongsBytes(a);
    AtSplit(s, p, BigEndian(|a|, INT_BYTES), e);
    LengthPrefix(|a|, s, p);
    forall i | 0 <= i < |a| ensures e[8 * i..8 * i + 8] == BigEndian(a[i], LONG_BYTES) {
      LongsBytesAt(a, i);
    }
    LongsAtOf(e, a, s, p + 4);
  }

  /** The array and string payloads. */
  lemma ArrayRoundTrip(t: Tag, s: seq<byte>, p: nat, d: nat)
    requires t.NBTByteArray? || t.NBTIntArray? || t.NBTLongArray? || t.NBTString?
    requires WellFormed(t)
    requires At(s, p, EncodePayload(t).bytes)
    ensures PayloadReads(s, p, TypeOf(t), d, t, p + |EncodePayload(t).bytes|)
  {
    match t
    case NBTByteArray(a) => ByteArrayRoundTrip(a, s, p);
    case NBTIntArray(a) => IntArrayRoundTrip(a, s, p);
    case NBTLongArray(a) => LongArrayRoundTrip(a, s, p);
    case NBTString(x) => StringRoundTrip(x, s, p);
  }

  // ---- One step of each decoding loop ----

  lemma ElementsStep(s: seq<byte>, p: nat, et: TagType, d: nat, n: nat, t: Tag, q: nat, ts: seq<Tag>, q': nat)
    requires n >= 1
    requires PayloadReads(s, p, et, d, t, q)
    requires ElementsRead(s, q, et, d, n - 1, ts, q')
    ensures ElementsRead(s, p, et, d, n, [t] + ts, q')
  {
  }

  lemma EntriesStep(s: seq<byte>, p: nat, d: nat, acc: seq<Entry>, nt: NamedTag, q: nat, es: seq<Entry>, q': nat)
    requires NamedReads(s, p, d, nt, q) && nt.tag != NBTEnd
    requires EntriesRead(s, q, d, Put(acc, nt.name, nt.tag), es, q')
    ensures EntriesRead(s, p, d, acc, es, q')
  {
  }

  lemma EntriesStop(s: seq<byte>, p: nat, d: nat, acc: seq<Entry>)
    requires d >= 1 && p < |s| && s[p] == 0
    ensures EntriesRead(s, p, d, acc, acc, p + 1)
  {
    SignedOfSmallByte(0);
    assert DecodeNamed(s, p, d) == Ok(Parsed(Some(NamedTag([], NBTEnd)), p + 1));
  }

  // ---- The round trip ----

  /** `readTag` after `writeTag`: the payload of a well-formed tree reads
      back as that tree, consuming exactly the bytes written, at any depth. */
  lemma {:induction false} PayloadRoundTrip(t: Tag, s: seq<byte>, p: nat, d: nat)
    requires WellFormed(t)
    requires At(s, p, EncodePayload(t).bytes)
    ensures EncodePayload(t).outcome == Pass
    ensures PayloadReads(s, p, TypeOf(t), d, t, p + |EncodePayload(t).bytes|)
    decreases t, 0
  {
    PayloadPasses(t);
    if t.NBTList? {
      ListRoundTrip(t, s, p, d);
    } else if t.NBTCompound? {
      CompoundRoundTrip(t, s, p, d);
    } else if t.NBTByteArray? || t.NBTIntArray? || t.NBTLongArray? || t.NBTString? {
      ArrayRoundTrip(t, s, p, d);
    } else {
      ScalarRoundTrip(t, s, p, d);
    }
  }

  /** The layout `writeTagList` produces: the element type id, the i32
      length, then the elements. */
  lemma {:induction false} ListBytes(et: TagType, es: seq<Tag>, s: seq<byte>, p: nat)
    requires |es| < 0x8000_0000
    requires forall i :: 0 <= i < |es| ==> WellFormed(es[i])
    requires At(s, p, EncodePayload(NBTList(et, es)).bytes)
    ensures p + 5 <= |s| && s[p..p + 1] == [Id(et) as byte]
    ensures Signed(s[p + 1..p + 1 + 4]) == |es|
    ensures At(s, p + 1 + 4, EncodeElements(es, |es|).bytes)
    ensures |EncodePayload(NBTList(et, es)).bytes| == 5 + |EncodeElements(es, |es|).bytes|
  {
    var body := EncodeElements(es, |es|).bytes;
    ElementsPass(es, |es|);
    var id := Id(et) as byte;
    var header := [id] + BigEndian(|es|, INT_BYTES);
    assert EncodePayload(NBTList(et, es)).bytes == header + body;
    AtSplit(s, p, header, body);
    AtSplit(s, p, [id], BigEndian(|es|, INT_BYTES));
    LengthPrefix(|es|, s, p + 1);
  }

  /** One `readTagList` whose element type byte, length and elements read
      as given, ending at `q` (which the caller may name `r`). */
  lemma ListStep(s: seq<byte>, p: nat, d: nat, ty: TagType, et: TagType, es: seq<Tag>, q: nat, r: nat)
    requires ty == List
    requires p + 5 <= |s| && s[p..p + 1] == [Id(et) as byte]
    requires Signed(s[p + 1..p + 1 + 4]) == |es|
    requires et == End ==> |es| == 0
    requires ElementsRead(s, p + 1 + 4, et, d + 1, |es|, es, q)
    requires r == q
    ensures PayloadReads(s, p, ty, d, NBTList(et, es), r)
  {
    SignedOfSmallByte(Id(et) as byte);
    GetByIdOfId(et);
  }

  lemma {:induction false} ListRoundTrip(t: Tag, s: seq<byte>, p: nat, d: nat)
    requires t.NBTList? && WellFormed(t)
    requires At(s, p, EncodePayload(t).bytes)
    ensures PayloadReads(s, p, TypeOf(t), d, t, p + |EncodePayload(t).bytes|)
    decreases t.elements, 3
  {
    var et, es := t.elementType, t.elements;
    ListBytes(et, es, s, p);
    WellFormedNotEnd(t);
    ElementsRoundTrip(es, et, s, p + 1 + 4, d + 1);
    ListStep(s, p, d, TypeOf(t), et, es, p + 1 + 4 + |EncodeElements(es, |es|).bytes|, p + |EncodePayload(t).bytes|);
  }

  /** The layout `writeTagCompound` produces: the entries, then END. */
  lemma CompoundBytes(t: Tag, s: seq<byte>, p: nat)
    requires t.NBTCompound? && WellFormed(t)
    requires At(s, p, EncodePayload(t).bytes)
    ensures At(s, p, EncodeEntries(t.entries, |t.entries|).bytes)
    ensures p + |EncodeEntries(t.entries, |t.entries|).bytes| < |s|
    ensures s[p + |EncodeEntries(t.entries, |t.entries|).bytes|] == 0
    ensures |EncodePayload(t).bytes| == |EncodeEntries(t.entries, |t.entries|).bytes| + 1
  {
    var e := EncodeEntries(t.entries, |t.entries|).bytes;
    EntriesPass(t.entries, |t.entries|);
    assert EncodePayload(t).bytes == e + [0];
    AtSplit(s, p, e, [0]);
  }

  /** One `readTagCompound` whose entries read back, followed by END. */
  lemma CompoundStep(t: Tag, s: seq<byte>, p: nat, d: nat)
    requires t.NBTCompound?
    requires EntriesRead(s, p, d + 1, [], t.entries, p + |EncodeEntries(t.entries, |t.entries|).bytes| + 1)
    requires |EncodePayload(t).bytes| == |EncodeEntries(t.entries, |t.entries|).bytes| + 1
    ensures PayloadReads(s, p, TypeOf(t), d, t, p + |EncodePayload(t).bytes|)
  {
  }

  lemma {:induction false} CompoundRoundTrip(t: Tag, s: seq<byte>, p: nat, d: nat)
    requires t.NBTCompound? && WellFormed(t)
    requires At(s, p, EncodePayload(t).bytes)
    ensures PayloadReads(s, p, TypeOf(t), d, t, p + |EncodePayload(t).bytes|)
    decreases t.entries, 3
  {
    CompoundBytes(t, s, p);
    EntriesRoundTrip(t.entries, s, p, d + 1);
    CompoundStep(t, s, p, d);
  }

  /** The layout `writeNamedTag` produces for a tag other than END: the type
      id, the name as a string, then the payload. */
  lemma {:induction false} NamedBytes(name: seq<byte>, t: Tag, s: seq<byte>, p: nat)
    requires WellFormed(t)
    requires At(s, p, EncodeNamed(name, t).bytes)
    ensures EncodeNamed(name, t).outcome == Pass
    ensures TypeOf(t) != End && p < |s| && s[p] == Id(TypeOf(t))
    ensures At(s, p + 1, EncodeString(name))
    ensures At(s, p + 1 + 2 + |name|, EncodePayload(t).bytes)
    ensures |EncodeNamed(name, t).bytes| == 3 + |name| + |EncodePayload(t).bytes|
  {
    NamedPasses(name, t);
    WellFormedNotEnd(t);
    var id := Id(TypeOf(t)) as byte;
    var e := EncodePayload(t).bytes;
    assert EncodeNamed(name, t).bytes == [id] + EncodeString(name) + e;
    AtSplit(s, p, [id] + EncodeString(name), e);
    AtSplit(s, p, [id], EncodeString(name));
    assert s[p] == id;
  }

  /** One `readNamedTag` of a named tag other than END: the type byte, the
      name, then the payload of that type, ending at `q'` (which the caller
      may name `r`). */
  lemma NamedStep(s: seq<byte>, p: nat, d: nat, ty: TagType, name: seq<byte>, q: nat, t: Tag, q': nat, r: nat)
    requires p < |s| && s[p] == Id(ty) && ty != End
    requires DecodeString(s, p + 1) == Ok(Parsed(name, q))
    requires PayloadReads(s, q, ty, d, t, q')
    requires r == q'
    ensures NamedReads(s, p, d, NamedTag(name, t), r)
  {
    SignedOfSmallByte(s[p]);
    GetByIdOfId(ty);
  }

  /** `readNamedTag` after `writeNamedTag`. */
  lemma {:induction false} NamedRoundTrip(name: seq<byte>, t: Tag, s: seq<byte>, p: nat, d: nat)
    requires WellFormed(t) && |name| < 0x1_0000
    requires At(s, p, EncodeNamed(name, t).bytes)
    ensures EncodeNamed(name, t).outcome == Pass
    ensures NamedReads(s, p, d, NamedTag(name, t), p + |EncodeNamed(name, t).bytes|)
    decreases t, 2
  {
    NamedBytes(name, t, s, p);
    PayloadRoundTrip(t, s, p + 1 + 2 + |name|, d);
    NamedFinish(name, t, s, p, d, |EncodePayload(t).bytes|, p + |EncodeNamed(name, t).bytes|);
  }

  /** The rest of `readNamedTag` once the type byte and the name are in
      place and the payload, of `m` bytes, is known to read back. */
  lemma NamedFinish(name: seq<byte>, t: Tag, s: seq<byte>, p: nat, d: nat, m: nat, r: nat)
    requires |name| < 0x1_0000
    requires TypeOf(t) != End && p < |s| && s[p] == Id(TypeOf(t))
    requires At(s, p + 1, EncodeString(name))
    requires PayloadReads(s, p + 1 + 2 + |name|, TypeOf(t), d, t, p + 1 + 2 + |name| + m)
    requires r == p + 1 + 2 + |name| + m
    ensures NamedReads(s, p, d, NamedTag(name, t), r)
  {
    StringRoundTrip(name, s, p + 1);
    var q := p + 1 + 2 + |name|;
    NamedStep(s, p, d, TypeOf(t), name, q, t, q + m, r);
  }

  // ---- The loops of the round trip, element by element ----

  /** The bytes of the first `i` iterations of `writeTagList`'s loop are a
      prefix of those of the first `n`. */
  lemma {:induction false} ElementsPrefixAt(es: seq<Tag>, s: seq<byte>, p: nat, i: nat, n: nat)
    requires i <= n <= |es|
    requires forall k :: 0 <= k < |es| ==> WellFormed(es[k])
    requires At(s, p, EncodeElements(es, n).bytes)
    ensures At(s, p, EncodeElements(es, i).bytes)
    decreases n
  {
    if i < n {
      ElementsPass(es, n - 1);
      AtSplit(s, p, EncodeElements(es, n - 1).bytes, EncodePayload(es[n - 1]).bytes);
      ElementsPrefixAt(es, s, p, i, n - 1);
    }
  }

  /** The same for `writeTagCompound`'s loop. */
  lemma {:induction false} EntriesPrefixAt(es: seq<Entry>, s: seq<byte>, p: nat, i: nat, n: nat)
    requires i <= n <= |es|
    requires forall k :: 0 <= k < |es| ==> WellFormed(es[k].value)
    requires At(s, p, EncodeEntries(es, n).bytes)
    ensures At(s, p, EncodeEntries(es, i).bytes)
    decreases n
  {
    if i < n {
      EntriesPass(es, n - 1);
      AtSplit(s, p, EncodeEntries(es, n - 1).bytes, EncodeNamed(es[n - 1].key, es[n - 1].value).bytes);
      EntriesPrefixAt(es, s, p, i, n - 1);
    }
  }

  /** Where element `i` of a list written from position `p` starts. */
  function ElementStart(es: seq<Tag>, p: nat, i: nat): nat
    requires i <= |es|
  {
    p + |EncodeElements(es, i).bytes|
  }

  /** Where entry `i` of a compound written from position `p` starts. */
  function EntryStart(es: seq<Entry>, p: nat, i: nat): nat
    requires i <= |es|
  {
    p + |EncodeEntries(es, i).bytes|
  }

  /** Element `i` of list `es`, written from `p`, reads back from its start
      as itself and ends where element `i + 1` starts. */
  predicate ElementReadsBack(es: seq<Tag>, et: TagType, s: seq<byte>, p: nat, d: nat, i: nat)
  {
    i < |es| && PayloadReads(s, ElementStart(es, p, i), et, d, es[i], ElementStart(es, p, i + 1))
  }

  /** Entry `i` of compound entries `es`, written from `p`, reads back from
      its start as itself, is not END, and ends where entry `i + 1` starts. */
  predicate EntryReadsBack(es: seq<Entry>, s: seq<byte>, p: nat, d: nat, i: nat)
  {
    && i < |es| && es[i].value != NBTEnd
    && NamedReads(s, EntryStart(es, p, i), d, NamedTag(es[i].key, es[i].value), EntryStart(es, p, i + 1))
  }

  /** The bytes of element `i` of a written list sit at its start, and the
      next element starts right after them. */
  lemma {:induction false} ElementBytesAt(es: seq<Tag>, s: seq<byte>, p: nat, i: nat)
    requires i < |es|
    requires forall k :: 0 <= k < |es| ==> WellFormed(es[k])
    requires At(s, p, EncodeElements(es, |es|).bytes)
    ensures At(s, ElementStart(es, p, i), EncodePayload(es[i]).bytes)
    ensures ElementStart(es, p, i + 1) == ElementStart(es, p, i) + |EncodePayload(es[i]).bytes|
  {
    ElementsPrefixAt(es, s, p, i + 1, |es|);
    ElementsPass(es, i);
    AtSplit(s, p, EncodeElements(es, i).bytes, EncodePayload(es[i]).bytes);
  }

  /** The bytes of entry `i` of a written compound sit at its start, and the
      next entry starts right after them. */
  lemma {:induction false} EntryBytesAt(es: seq<Entry>, s: seq<byte>, p: nat, i: nat)
    requires i < |es|
    requires forall k :: 0 <= k < |es| ==> WellFormed(es[k].value)
    requires At(s, p, EncodeEntries(es, |es|).bytes)
    ensures At(s, EntryStart(es, p, i), EncodeNamed(es[i].key, es[i].value).bytes)
    ensures EntryStart(es, p, i + 1) == EntryStart(es, p, i) + |EncodeNamed(es[i].key, es[i].value).bytes|
  {
    EntriesPrefixAt(es, s, p, i + 1, |es|);
    EntriesPass(es, i);
    AtSplit(s, p, EncodeEntries(es, i).bytes, EncodeNamed(es[i].key, es[i].value).bytes);
  }

  /** Element `i` of a written list reads back as itself from its start. */
  lemma {:induction false} ElementAt(es: seq<Tag>, et: TagType, s: seq<byte>, p: nat, d: nat, i: nat)
    requires i < |es|
    requires forall k :: 0 <= k < |es| ==> TypeOf(es[k]) == et && WellFormed(es[k])
    requires At(s, p, EncodeElements(es, |es|).bytes)
    ensures ElementReadsBack(es, et, s, p, d, i)
    decreases es, 0
  {
    ElementBytesAt(es, s, p, i);
    PayloadRoundTrip(es[i], s, ElementStart(es, p, i), d);
  }

  /** Entry `i` of a written compound reads back as itself from its start. */
  lemma {:induction false} EntryAt(es: seq<Entry>, s: seq<byte>, p: nat, d: nat, i: nat)
    requires i < |es|
    requires forall k :: 0 <= k < |es| ==> |es[k].key| < 0x1_0000 && WellFormed(es[k].value)
    requires At(s, p, EncodeEntries(es, |es|).bytes)
    ensures EntryReadsBack(es, s, p, d, i)
    decreases es, 0
  {
    EntryBytesAt(es, s, p, i);
    NamedRoundTrip(es[i].key, es[i].value, s, EntryStart(es, p, i), d);
    WellFormedNotEnd(es[i].value);
  }

  /** `ps` holds the start of every element of a list written from `p`,
      and its end. */
  predicate ElementStartsAre(es: seq<Tag>, p: nat, ps: seq<nat>)
  {
    |ps| == |es| + 1 && forall i :: 0 <= i <= |es| ==> ps[i] == ElementStart(es, p, i)
  }

  /** `ps` holds the start of every entry of a compound written from `p`,
      and the end of its last entry. */
  predicate EntryStartsAre(es: seq<Entry>, p: nat, ps: seq<nat>)
  {
    |ps| == |es| + 1 && forall i :: 0 <= i <= |es| ==> ps[i] == EntryStart(es, p, i)
  }

  /** Element `i` of `es` reads back from position `ps[i]` and ends at
      `ps[i + 1]`. */
  predicate ElementReadsAt(es: seq<Tag>, et: TagType, s: seq<byte>, ps: seq<nat>, d: nat, i: nat)
  {
    i < |es| && i + 1 < |ps| && PayloadReads(s, ps[i], et, d, es[i], ps[i + 1])
  }

  /** Entry `i` of `es` reads back from position `ps[i]`, is not END, and ends
      at `ps[i + 1]`. */
  predicate EntryReadsAt(es: seq<Entry>, s: seq<byte>, ps: seq<nat>, d: nat, i: nat)
  {
    && i < |es| && i + 1 < |ps| && es[i].value != NBTEnd
    && NamedReads(s, ps[i], d, NamedTag(es[i].key, es[i].value), ps[i + 1])
  }

  /** The entries of a compound with distinct keys, each reading back from
      its start, followed by an END byte. */
  predicate EntriesLaidOut(es: seq<Entry>, s: seq<byte>, ps: seq<nat>, d: nat)
  {
    && d >= 1 && DistinctKeys(es)
    && |ps| == |es| + 1 && ps[|es|] < |s| && s[ps[|es|]] == 0
    && forall i :: 0 <= i < |es| ==> EntryReadsAt(es, s, ps, d, i)
  }

  /** Every element of a written list reads back from its start. */
  lemma {:induction false} ElementsReadBack(es: seq<Tag>, et: TagType, s: seq<byte>, p: nat, d: nat, ps: seq<nat>)
    requires forall i :: 0 <= i < |es| ==> TypeOf(es[i]) == et && WellFormed(es[i])
    requires At(s, p, EncodeElements(es, |es|).bytes)
    requires ElementStartsAre(es, p, ps)
    ensures forall i :: 0 <= i < |es| ==> ElementReadsAt(es, et, s, ps, d, i)
    decreases es, 1
  {
    forall i | 0 <= i < |es| ensures ElementReadsAt(es, et, s, ps, d, i) {
      ElementAt(es, et, s, p, d, i);
      assert ps[i] == ElementStart(es, p, i) && ps[i + 1] == ElementStart(es, p, i + 1);
    }
  }

  /** Every entry of a written compound reads back from its start. */
  lemma {:induction false} EntriesReadBack(es: seq<Entry>, s: seq<byte>, p: nat, d: nat, ps: seq<nat>)
    requires forall i :: 0 <= i < |es| ==> |es[i].key| < 0x1_0000 && WellFormed(es[i].value)
    requires At(s, p, EncodeEntries(es, |es|).bytes)
    requires EntryStartsAre(es, p, ps)
    ensures forall i :: 0 <= i < |es| ==> EntryReadsAt(es, s, ps, d, i)
    decreases es, 1
  {
    forall i | 0 <= i < |es| ensures EntryReadsAt(es, s, ps, d, i) {
      EntryAt(es, s, p, d, i);
      assert ps[i] == EntryStart(es, p, i) && ps[i + 1] == EntryStart(es, p, i + 1);
    }
  }

  /** The list loop of `readTagList` from element `k` on, given that each
      element reads back from its position: the rest of the elements are
      collected in order. */
  lemma {:induction false} DecodeElementsAt(es: seq<Tag>, et: TagType, s: seq<byte>, ps: seq<nat>, d: nat, k: nat)
    requires ElementsLaidOut(es, et, s, ps, d) && k <= |es|
    ensures ElementsRead(s, ps[k], et, d, |es| - k, es[k..], ps[|es|])
    decreases |es| - k
  {
    if k == |es| {
      assert es[k..] == [];
      assert DecodeElements(s, ps[k], et, d, 0) == Ok(Parsed([], ps[k]));
    } else {
      DecodeElementsAt(es, et, s, ps, d, k + 1);
      ElementNext(es, et, s, ps, d, k);
    }
  }

  /** The elements of a list, each reading back from its start, the last
      ending within the input. */
  predicate ElementsLaidOut(es: seq<Tag>, et: TagType, s: seq<byte>, ps: seq<nat>, d: nat)
  {
    && |ps| == |es| + 1 && ps[|es|] <= |s|
    && forall i :: 0 <= i < |es| ==> ElementReadsAt(es, et, s, ps, d, i)
  }

  /** One iteration of the list loop: element `k` reads back, then the rest. */
  lemma ElementNext(es: seq<Tag>, et: TagType, s: seq<byte>, ps: seq<nat>, d: nat, k: nat)
    requires ElementsLaidOut(es, et, s, ps, d) && k < |es|
    requires ElementsRead(s, ps[k + 1], et, d, |es| - (k + 1), es[k + 1..], ps[|es|])
    ensures ElementsRead(s, ps[k], et, d, |es| - k, es[k..], ps[|es|])
  {
    assert ElementReadsAt(es, et, s, ps, d, k);
    ElementsStep(s, ps[k], et, d, |es| - k, es[k], ps[k + 1], es[k + 1..], ps[|es|]);
    assert [es[k]] + es[k + 1..] == es[k..];
  }

  /** Reading the entries of a compound with distinct keys in order, each
      `put` appends. */
  lemma PutNext(es: seq<Entry>, k: nat)
    requires k < |es| && DistinctKeys(es)
    ensures Put(es[..k], es[k].key, es[k].value) == es[..k + 1]
  {
    forall i | 0 <= i < k ensures es[..k][i].key != es[k].key {
      assert es[..k][i] == es[i];
    }
    assert es[..k] + [es[k]] == es[..k + 1];
  }

  /** The compound loop of `readTagCompound` from entry `k` on, with the
      entries before it already put, given that each entry reads back from
      its position; the END byte after them stops the loop. */
  lemma {:induction false} DecodeEntriesAt(es: seq<Entry>, s: seq<byte>, ps: seq<nat>, d: nat, k: nat)
    requires EntriesLaidOut(es, s, ps, d) && k <= |es|
    ensures EntriesRead(s, ps[k], d, es[..k], es, ps[|es|] + 1)
    decreases |es| - k
  {
    if k == |es| {
      assert es[..k] == es;
      EntriesStop(s, ps[k], d, es);
    } else {
      DecodeEntriesAt(es, s, ps, d, k + 1);
      EntryNext(es, s, ps, d, k, ps[|es|] + 1);
    }
  }

  /** One iteration of the compound loop: with entries before `k` put, entry
      `k` reads back and is put next. */
  lemma EntryNext(es: seq<Entry>, s: seq<byte>, ps: seq<nat>, d: nat, k: nat, q: nat)
    requires EntriesLaidOut(es, s, ps, d) && k < |es|
    requires EntriesRead(s, ps[k + 1], d, es[..k + 1], es, q)
    ensures EntriesRead(s, ps[k], d, es[..k], es, q)
  {
    assert EntryReadsAt(es, s, ps, d, k);
    PutNext(es, k);
    EntriesStep(s, ps[k], d, es[..k], NamedTag(es[k].key, es[k].value), ps[k + 1], es, q);
  }

  /** The start of every element of a list written from `p`. */
  lemma ElementStartsFor(es: seq<Tag>, p: nat) returns (ps: seq<nat>)
    ensures ElementStartsAre(es, p, ps)
    ensures ps[0] == p && ps[|es|] == p + |EncodeElements(es, |es|).bytes|
  {
    ps := seq(|es| + 1, i requires 0 <= i <= |es| => ElementStart(es, p, i));
    assert ps[0] == ElementStart(es, p, 0);
  }

  /** The start of every entry of a compound written from `p`. */
  lemma EntryStartsFor(es: seq<Entry>, p: nat) returns (ps: seq<nat>)
    ensures EntryStartsAre(es, p, ps)
    ensures ps[0] == p && ps[|es|] == p + |EncodeEntries(es, |es|).bytes|
  {
    ps := seq(|es| + 1, i requires 0 <= i <= |es| => EntryStart(es, p, i));
    assert ps[0] == EntryStart(es, p, 0);
  }

  /** `ElementsRead` at equal positions. */
  lemma ElementsReadAs(s: seq<byte>, p: nat, et: TagType, d: nat, n: nat, es: seq<Tag>, q: nat, p': nat, es': seq<Tag>, q': nat)
    requires ElementsRead(s, p, et, d, n, es, q)
    requires p' == p && es' == es && q' == q
    ensures ElementsRead(s, p', et, d, n, es', q')
  {
  }

  /** `EntriesRead` at equal positions. */
  lemma EntriesReadAs(s: seq<byte>, p: nat, d: nat, acc: seq<Entry>, es: seq<Entry>, q: nat, p': nat, acc': seq<Entry>, q': nat)
    requires EntriesRead(s, p, d, acc, es, q)
    requires p' == p && acc' == acc && q' == q
    ensures EntriesRead(s, p', d, acc', es, q')
  {
  }

  lemma {:induction false} ElementsRoundTrip(es: seq<Tag>, et: TagType, s: seq<byte>, p: nat, d: nat)
    requires forall i :: 0 <= i < |es| ==> TypeOf(es[i]) == et && WellFormed(es[i])
    requires At(s, p, EncodeElements(es, |es|).bytes)
    ensures ElementsRead(s, p, et, d, |es|, es, p + |EncodeElements(es, |es|).bytes|)
    decreases es, 2
  {
    var ps := ElementStartsFor(es, p);
    ElementsReadBack(es, et, s, p, d, ps);
    DecodeElementsAt(es, et, s, ps, d, 0);
    assert es[0..] == es;
    ElementsReadAs(s, ps[0], et, d, |es|, es[0..], ps[|es|], p, es, p + |EncodeElements(es, |es|).bytes|);
  }

  lemma {:induction false} EntriesRoundTrip(es: seq<Entry>, s: seq<byte>, p: nat, d: nat)
    requires d >= 1
    requires DistinctKeys(es)
    requires forall i :: 0 <= i < |es| ==> |es[i].key| < 0x1_0000 && WellFormed(es[i].value)
    requires At(s, p, EncodeEntries(es, |es|).bytes)
    requires p + |EncodeEntries(es, |es|).bytes| < |s| && s[p + |EncodeEntries(es, |es|).bytes|] == 0
    ensures EntriesRead(s, p, d, [], es, p + |EncodeEntries(es, |es|).bytes| + 1)
    decreases es, 2
  {
    var ps := EntryStartsFor(es, p);
    EntriesReadBack(es, s, p, d, ps);
    DecodeEntriesAt(es, s, ps, d, 0);
    assert es[..0] == [];
    EntriesReadAs(s, ps[0], d, es[..0], es, ps[|es|] + 1, p, [], p + |EncodeEntries(es, |es|).bytes| + 1);
  }

  /** `readNamedTag()` after `writeNamedTag(name, tag)`, for a well-formed
      named tag written anywhere in the stream. */
  lemma ReadAfterWrite(nt: NamedTag, s: seq<byte>, p: nat)
    requires WellFormedNamed(nt)
    requires At(s, p, EncodeNamed(nt.name, nt.tag).bytes)
    ensures EncodeNamed(nt.name, nt.tag).outcome == Pass
    ensures p <= |s| && ReadNamedTag(s, p) == Ok(Parsed(Some(nt), p + |EncodeNamed(nt.name, nt.tag).bytes|))
  {
    NamedRoundTrip(nt.name, nt.tag, s, p, 0);
    assert NamedReads(s, p, 0, nt, p + |EncodeNamed(nt.name, nt.tag).bytes|);
  }

  /** The round trip on a stream holding exactly one named tag. */
  lemma DecodeEncode(nt: NamedTag)
    requires WellFormedNamed(nt)
    ensures var w := EncodeNamed(nt.name, nt.tag);
      w.outcome == Pass && ReadNamedTag(w.bytes, 0) == Ok(Parsed(Some(nt), |w.bytes|))
  {
    var w := EncodeNamed(nt.name, nt.tag);
    ReadAfterWrite(nt, w.bytes, 0);
  }
}
