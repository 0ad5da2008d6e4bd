/** The error cases and edge cases of the binary codec, and reading a
    stream of several named tags back until the clean end of stream. */
module NBTCases {
  import opened Bytes
  import opened NBTType
  import opened NBTTag
  import opened NBTErrors
  import opened NBTInput
  import opened NBTOutput
  import opened NBTRoundTrip

  /** A type byte outside 0..12, negative ones included, is refused before
      anything else is read. */
  lemma InvalidTypeByte(s: seq<byte>, p: nat, d: nat)
    requires p < |s| && !(0 <= ToI8(s[p]) < 13)
    ensures DecodeNamed(s, p, d) == Err(InvalidTypeId(ToI8(s[p])))
  {
  }

  /** An END type byte at depth 0 fails, whatever follows it. */
  lemma EndAtTopLevelFails(s: seq<byte>, p: nat)
    requires p < |s| && s[p] == 0
    ensures DecodeNamed(s, p, 0) == Err(EndAtTopLevel)
  {
    assert GetById(ToI8(s[p])) == Some(End);
  }

  /** Below the top level an END type byte alone is a whole named tag: the
      name is empty, no name bytes and no payload bytes are read. */
  lemma EndInside(s: seq<byte>, p: nat, d: nat)
    requires p < |s| && s[p] == 0 && d > 0
    ensures DecodeNamed(s, p, d) == Ok(Parsed(Some(NamedTag([], NBTEnd)), p + 1))
  {
    assert GetById(ToI8(s[p])) == Some(End);
  }

  /** Every other type reads a name with `readString` right after the type
      byte, then the payload right after the name. */
  lemma NameBeforePayload(s: seq<byte>, p: nat, d: nat, ty: TagType)
    requires p < |s| && GetById(ToI8(s[p])) == Some(ty) && ty != End
    ensures var r := DecodeNamed(s, p, d);
      r.Ok? ==>
        && DecodeString(s, p + 1).Ok?
        && var n := DecodeString(s, p + 1).value;
        && r.value.value == Some(NamedTag(n.value, r.value.value.value.tag))
        && PayloadReads(s, n.next, ty, d, r.value.value.value.tag, r.value.next)
    ensures DecodeString(s, p + 1).Err? ==> DecodeNamed(s, p, d) == Err(UnexpectedEndOfStream)
  {
  }

  /** A list declared END with a positive length fails before any element
      is read. */
  lemma NonEmptyEndListFails(s: seq<byte>, p: nat, d: nat)
    requires p + 5 <= |s| && s[p] == 0 && Signed(s[p + 1..p + 5]) > 0
    ensures DecodeList(s, p, d) == Err(NonEmptyEndList)
  {
    Pow256Values();
    assert GetById(ToI8(s[p])) == Some(End);
  }

  /** A length of zero or less reads no element: the list is empty, keeps
      its declared element type and ends right after its five header
      bytes. */
  lemma NonPositiveLengthIsEmpty(s: seq<byte>, p: nat, d: nat, et: TagType)
    requires p + 5 <= |s| && GetById(ToI8(s[p])) == Some(et) && Signed(s[p + 1..p + 5]) <= 0
    ensures DecodeList(s, p, d) == Ok(Parsed(NBTList(et, []), p + 5))
  {
    Pow256Values();
    assert ReadSigned(s, p, 1) == Ok(Parsed(ToI8(s[p]), p + 1));
  }

  /** A compound whose stream ends before its END fails. */
  lemma CompoundCutShort(s: seq<byte>, d: nat, acc: seq<Entry>)
    ensures DecodeEntries(s, |s|, d, acc) == Err(EndsInsideCompound)
  {
  }

  /** A negative array length is refused with that length. */
  lemma NegativeArrayLength(s: seq<byte>, p: nat, ty: TagType, d: nat)
    requires ty == ByteArray || ty == IntArray || ty == LongArray
    requires p + 4 <= |s| && Signed(s[p..p + 4]) < 0
    ensures DecodePayload(s, p, ty, d) == Err(NegativeArraySize(Signed(s[p..p + 4])))
  {
  }

  /** The loop of the stream test: named tags are read one after the other
      until `readNamedTag` gives `null`. */
  function ReadAll(s: seq<byte>, p: nat): (r: Result<seq<NamedTag>>)
    requires p <= |s|
    ensures r.Ok? && p == |s| ==> r.value == []
    decreases |s| - p
  {
    match ReadNamedTag(s, p)
    case Err(e) => Err(e)
    case Ok(Parsed(None, _)) => Ok([])
    case Ok(Parsed(Some(nt), q)) =>
      match ReadAll(s, q)
      case Err(e) => Err(e)
      case Ok(rest) => Ok([nt] + rest)
  }

  /** What `writeNamedTag` puts out for each tag in turn. */
  function WriteAll(nts: seq<NamedTag>): (r: seq<byte>)
    ensures nts == [] <==> r == []
  {
    if nts == [] then [] else EncodeNamed(nts[0].name, nts[0].tag).bytes + WriteAll(nts[1..])
  }

  /** Reading back a stream of written well-formed named tags yields each
      tag again, in order, and then the clean end of stream. */
  lemma {:induction false} ReadAllWriteAll(nts: seq<NamedTag>, s: seq<byte>, p: nat)
    requires forall i :: 0 <= i < |nts| ==> WellFormedNamed(nts[i])
    requires p <= |s| && s[p..] == WriteAll(nts)
    ensures ReadAll(s, p) == Ok(nts)
    decreases nts
  {
    if nts == [] {
      assert p == |s|;
    } else {
      var q := p + |EncodeNamed(nts[0].name, nts[0].tag).bytes|;
      ReadFirst(nts, s, p, q);
      ReadAllWriteAll(nts[1..], s, q);
      ReadAllStep(s, p, nts, q);
    }
  }

  /** The first tag of the stream reads back, and the rest of the stream
      holds the rest of the tags. */
  lemma {:induction false} ReadFirst(nts: seq<NamedTag>, s: seq<byte>, p: nat, q: nat)
    requires forall i :: 0 <= i < |nts| ==> WellFormedNamed(nts[i])
    requires nts != [] && p <= |s| && s[p..] == WriteAll(nts)
    requires q == p + |EncodeNamed(nts[0].name, nts[0].tag).bytes|
    ensures NamedReads(s, p, 0, nts[0], q)
    ensures q <= |s| && s[q..] == WriteAll(nts[1..])
    ensures forall i :: 0 <= i < |nts[1..]| ==> WellFormedNamed(nts[1..][i])
  {
    var nt := nts[0];
    WriteAllSplit(nts, s, p, q);
    NamedRoundTrip(nt.name, nt.tag, s, p, 0);
    assert NamedTag(nt.name, nt.tag) == nt;
    forall i | 0 <= i < |nts[1..]| ensures WellFormedNamed(nts[1..][i]) {
      assert nts[1..][i] == nts[i + 1];
    }
  }

  lemma {:induction false} WriteAllSplit(nts: seq<NamedTag>, s: seq<byte>, p: nat, q: nat)
    requires nts != [] && p <= |s| && s[p..] == WriteAll(nts)
    requires q == p + |EncodeNamed(nts[0].name, nts[0].tag).bytes|
    ensures At(s, p, EncodeNamed(nts[0].name, nts[0].tag).bytes)
    ensures q <= |s| && s[q..] == WriteAll(nts[1..])
  {
    var b := EncodeNamed(nts[0].name, nts[0].tag).bytes;
    assert s[p..] == b + WriteAll(nts[1..]);
    assert s[p..q] == b;
  }

  lemma {:induction false} ReadAllStep(s: seq<byte>, p: nat, nts: seq<NamedTag>, q: nat)
    requires nts != [] && p <= q <= |s|
    requires NamedReads(s, p, 0, nts[0], q)
    requires ReadAll(s, q) == Ok(nts[1..])
    ensures ReadAll(s, p) == Ok(nts)
  {
    assert nts == [nts[0]] + nts[1..];
  }

  /** The same for a stream holding nothing else. */
  lemma ReadBackStream(nts: seq<NamedTag>)
    requires forall i :: 0 <= i < |nts| ==> WellFormedNamed(nts[i])
    ensures ReadAll(WriteAll(nts), 0) == Ok(nts)
  {
    ReadAllWriteAll(nts, WriteAll(nts), 0);
  }

  /** A named END is refused on write after its type byte and name are out;
      no payload follows. */
  lemma NamedEndWrite(name: seq<byte>)
    ensures EncodeNamed(name, NBTEnd) == Written([0] + EncodeString(name), Fail(NamedEnd))
  {
  }
}
