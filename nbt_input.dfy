/** `NBTInputStream`: decoding named tags from a byte stream.
    The functions below are the specification: each reads from `s` at
    position `p` and returns the value read with the position after it.
    The class `NBTInputStream` at the end runs the same reads on a cursor
    and is proved to agree with them. */
module NBTInput {
  import opened Bytes
  import opened NBTType
  import opened NBTTag
  import opened NBTErrors

  /** A value read, and the position of the first byte after it. */
  datatype Parsed<T> = Parsed(value: T, next: nat)

  /** `(byte) b`: the signed reading of one wire byte. */
  function ToI8(b: byte): (v: i8)
    ensures v == Signed([b])
  {
    if b < 128 then b else b - 256
  }

  /** `readFully` of `n` bytes, and the fixed-width reads built on it. */
  function ReadN(s: seq<byte>, p: nat, n: nat): (r: Result<Parsed<seq<byte>>>)
    ensures r.Ok? <==> p + n <= |s|
    ensures r.Ok? ==> r.value == Parsed(s[p..p + n], p + n)
    ensures r.Err? ==> r.error == UnexpectedEndOfStream
  {
    if p + n <= |s| then Ok(Parsed(s[p..p + n], p + n)) else Err(UnexpectedEndOfStream)
  }

  /** `readByte` / `readShort` / `readInt` / `readLong`: `n` bytes, signed. */
  function ReadSigned(s: seq<byte>, p: nat, n: nat): (r: Result<Parsed<int>>)
    requires n >= 1
    ensures r.Ok? <==> p + n <= |s|
    ensures r.Ok? ==> r.value == Parsed(Signed(s[p..p + n]), p + n)
    ensures r.Err? ==> r.error == UnexpectedEndOfStream
  {
    if p + n <= |s| then Ok(Parsed(Signed(s[p..p + n]), p + n)) else Err(UnexpectedEndOfStream)
  }

  /** `readUnsignedShort` and the 4- and 8-byte bit patterns of FLOAT and DOUBLE. */
  function ReadUnsigned(s: seq<byte>, p: nat, n: nat): (r: Result<Parsed<nat>>)
    ensures r.Ok? <==> p + n <= |s|
    ensures r.Ok? ==> r.value == Parsed(Unsigned(s[p..p + n]), p + n)
    ensures r.Err? ==> r.error == UnexpectedEndOfStream
  {
    if p + n <= |s| then Ok(Parsed(Unsigned(s[p..p + n]), p + n)) else Err(UnexpectedEndOfStream)
  }

  /** `readString`: an unsigned 16-bit length, then exactly that many bytes. */
  function DecodeString(s: seq<byte>, p: nat): (r: Result<Parsed<seq<byte>>>)
    ensures r.Ok? <==> p + 2 <= |s| && p + 2 + Unsigned(s[p..p + 2]) <= |s|
    ensures r.Ok? ==>
      var n := Unsigned(s[p..p + 2]);
      r.value == Parsed(s[p + 2..p + 2 + n], p + 2 + n)
    ensures r.Err? ==> r.error == UnexpectedEndOfStream
  {
    match ReadUnsigned(s, p, 2)
    case Err(e) => Err(e)
    case Ok(Parsed(n, q)) => ReadN(s, q, n)
  }

  /** The i32 length prefix of the array payloads, rejecting negative lengths
      as `new byte[length]` does. */
  function ReadArrayLength(s: seq<byte>, p: nat): (r: Result<Parsed<nat>>)
    ensures r.Ok? ==> p + 4 <= |s| && r.value == Parsed(Signed(s[p..p + 4]), p + 4)
    ensures r.Ok? ==> 0 <= r.value.value
    ensures r.Err? ==>
      if p + 4 <= |s| then r.error == NegativeArraySize(Signed(s[p..p + 4])) && Signed(s[p..p + 4]) < 0
      else r.error == UnexpectedEndOfStream
  {
    match ReadSigned(s, p, 4)
    case Err(e) => Err(e)
    case Ok(Parsed(n, q)) => if n < 0 then Err(NegativeArraySize(n)) else Ok(Parsed(n, q))
  }

  /** The `n` big-endian i32 values stored from position `p`. */
  function IntsAt(s: seq<byte>, p: nat, n: nat): (r: seq<i32>)
    requires p + 4 * n <= |s|
    ensures |r| == n
  {
    seq(n, i requires 0 <= i < n => Signed(s[p + 4 * i..p + 4 * i + 4]))
  }

  /** The `n` big-endian i64 values stored from position `p`. */
  function LongsAt(s: seq<byte>, p: nat, n: nat): (r: seq<i64>)
    requires p + 8 * n <= |s|
    ensures |r| == n
  {
    seq(n, i requires 0 <= i < n => Signed(s[p + 8 * i..p + 8 * i + 8]))
  }

  /** The bytes of a byte array, each read as a signed Java `byte`. */
  function SignedBytes(b: seq<byte>): (r: seq<i8>)
    ensures |r| == |b|
    ensures forall i :: 0 <= i < |b| ==> r[i] == ToI8(b[i])
  {
    seq(|b|, i requires 0 <= i < |b| => ToI8(b[i]))
  }

  /** `readTagByteArray`: an i32 length, then that many signed bytes. */
  function DecodeByteArray(s: seq<byte>, p: nat): (r: Result<Parsed<Tag>>)
    ensures r.Ok? ==> (p + 4 <= |s| &&
      var n := Signed(s[p..p + 4]);
      && 0 <= n && p + 4 + n <= |s|
      && r.value == Parsed(NBTByteArray(SignedBytes(s[p + 4..p + 4 + n])), p + 4 + n))
  {
    match ReadArrayLength(s, p)
    case Err(e) => Err(e)
    case Ok(Parsed(n, q)) =>
      match ReadN(s, q, n)
      case Err(e) => Err(e)
      case Ok(Parsed(b, q')) => Ok(Parsed(NBTByteArray(SignedBytes(b)), q'))
  }

  /** `readTagIntArray`: an i32 length, then that many 4-byte values. */
  function DecodeIntArray(s: seq<byte>, p: nat): (r: Result<Parsed<Tag>>)
    ensures r.Ok? ==> (p + 4 <= |s| &&
      var n := Signed(s[p..p + 4]);
      && 0 <= n && p + 4 + 4 * n <= |s|
      && r.value == Parsed(NBTIntArray(IntsAt(s, p + 4, n)), p + 4 + 4 * n))
  {
    match ReadArrayLength(s, p)
    case Err(e) => Err(e)
    case Ok(Parsed(n, q)) =>
      if q + 4 * n <= |s| then Ok(Parsed(NBTIntArray(IntsAt(s, q, n)), q + 4 * n))
      else Err(UnexpectedEndOfStream)
  }

  /** `readTagLongArray`: an i32 length, then that many 8-byte values. */
  function DecodeLongArray(s: seq<byte>, p: nat): (r: Result<Parsed<Tag>>)
    ensures r.Ok? ==> (p + 4 <= |s| &&
      var n := Signed(s[p..p + 4]);
      && 0 <= n && p + 4 + 8 * n <= |s|
      && r.value == Parsed(NBTLongArray(LongsAt(s, p + 4, n)), p + 4 + 8 * n))
  {
    match ReadArrayLength(s, p)
    case Err(e) => Err(e)
    case Ok(Parsed(n, q)) =>
      if q + 8 * n <= |s| then Ok(Parsed(NBTLongArray(LongsAt(s, q, n)), q + 8 * n))
      else Err(UnexpectedEndOfStream)
  }

  /** `readNamedTag(depth)`: a type byte, a name unless the type is END, and
      the payload. End of stream at the type byte is the one clean outcome
      (`null`, here `None`), and it consumes nothing. */
  function DecodeNamed(s: seq<byte>, p: nat, depth: nat): (r: Result<Parsed<Option<NamedTag>>>)
    requires p <= |s|
    ensures r.Ok? ==> p <= r.value.next <= |s|
    ensures (r.Ok? && r.value.value.None?) <==> p == |s|
    ensures r.Ok? && r.value.value.None? ==> r.value.next == p
    ensures r.Ok? && r.value.value.Some? ==> p < r.value.next
    decreases |s| - p, 0, 0
  {
    if p == |s| then Ok(Parsed(None, p))
    else
      var id := ToI8(s[p]);
      match GetById(id)
      case None => Err(InvalidTypeId(id))
      case Some(ty) =>
        if ty == End then
          match DecodePayload(s, p + 1, End, depth)
          case Err(e) => Err(e)
          case Ok(Parsed(t, q)) => Ok(Parsed(Some(NamedTag([], t)), q))
        else
          match DecodeString(s, p + 1)
          case Err(e) => Err(e)
          case Ok(Parsed(name, q)) =>
            match DecodePayload(s, q, ty, depth)
            case Err(e) => Err(e)
            case Ok(Parsed(t, q')) => Ok(Parsed(Some(NamedTag(name, t)), q'))
  }

  /** `readByte`, `readShort`, `readInt` and `readLong`, and the 4- and 8-byte
      bit patterns of `readFloat` and `readDouble`: the fixed-width payloads. */
  function DecodeScalar(s: seq<byte>, p: nat, ty: TagType): (r: Result<Parsed<Tag>>)
    requires ty == Byte || ty == Short || ty == Int || ty == Long || ty == Float || ty == Double
    ensures r.Ok? <==> p + Width(ty) <= |s|
    ensures r.Ok? ==> r.value.next == p + Width(ty) && TypeOf(r.value.value) == ty
    ensures r.Err? ==> r.error == UnexpectedEndOfStream
  {
    Pow256Values();
    match ty
    case Byte =>
      (match ReadSigned(s, p, 1) case Err(e) => Err(e) case Ok(Parsed(v, q)) => Ok(Parsed(NBTByte(v), q)))
    case Short =>
      (match ReadSigned(s, p, SHORT_BYTES) case Err(e) => Err(e) case Ok(Parsed(v, q)) => Ok(Parsed(NBTShort(v), q)))
    case Int =>
      (match ReadSigned(s, p, INT_BYTES) case Err(e) => Err(e) case Ok(Parsed(v, q)) => Ok(Parsed(NBTInt(v), q)))
    case Long =>
      (match ReadSigned(s, p, LONG_BYTES) case Err(e) => Err(e) case Ok(Parsed(v, q)) => Ok(Parsed(NBTLong(v), q)))
    case Float =>
      (match ReadUnsigned(s, p, INT_BYTES) case Err(e) => Err(e) case Ok(Parsed(v, q)) => Ok(Parsed(NBTFloat(v), q)))
    case Double =>
      (match ReadUnsigned(s, p, LONG_BYTES) case Err(e) => Err(e) case Ok(Parsed(v, q)) => Ok(Parsed(NBTDouble(v), q)))
    case _ => Err(UnexpectedEndOfStream)
  }

  /** The number of bytes of a fixed-width payload. */
  function Width(ty: TagType): nat
  {
    match ty
    case Byte => 1
    case Short => SHORT_BYTES
    case Int | Float => INT_BYTES
    case Long | Double => LONG_BYTES
    case _ => 0
  }

  /** `readTag(type, depth)`: the payload of a tag of the given type. */
  function DecodePayload(s: seq<byte>, p: nat, ty: TagType, depth: nat): (r: Result<Parsed<Tag>>)
    requires p <= |s|
    ensures r.Ok? ==> p <= r.value.next <= |s|
    ensures r.Ok? ==> TypeOf(r.value.value) == ty
    decreases |s| - p, 3, 0
  {
    match ty
    case End => if depth == 0 then Err(EndAtTopLevel) else Ok(Parsed(NBTEnd, p))
    case Byte | Short | Int | Long | Float | Double => DecodeScalar(s, p, ty)
    case ByteArray => DecodeByteArray(s, p)
    case String =>
      (match DecodeString(s, p) case Err(e) => Err(e) case Ok(Parsed(v, q)) => Ok(Parsed(NBTString(v), q)))
    case List => DecodeList(s, p, depth)
    case Compound => DecodeCompound(s, p, depth)
    case IntArray => DecodeIntArray(s, p)
    case LongArray => DecodeLongArray(s, p)
  }

  /** `readTagList(depth)`: an element type byte, an i32 length, then that
      many unnamed payloads at `depth + 1`. A negative length reads no
      element (the loop does not run). */
  function DecodeList(s: seq<byte>, p: nat, depth: nat): (r: Result<Parsed<Tag>>)
    requires p <= |s|
    ensures r.Ok? ==> p + 5 <= r.value.next <= |s|
    ensures r.Ok? ==> r.value.value.NBTList?
    decreases |s| - p, 2, 0
  {
    match ReadSigned(s, p, 1)
    case Err(e) => Err(e)
    case Ok(Parsed(id, q)) =>
      match GetById(id)
      case None => Err(InvalidTypeId(id))
      case Some(et) =>
        match ReadSigned(s, q, 4)
        case Err(e) => Err(e)
        case Ok(Parsed(n, q')) =>
          if et == End && n > 0 then Err(NonEmptyEndList)
          else
            match DecodeElements(s, q', et, depth + 1, if n < 0 then 0 else n)
            case Err(e) => Err(e)
            case Ok(Parsed(es, q'')) => Ok(Parsed(NBTList(et, es), q''))
  }

  /** The `n` list elements, read one after the other. */
  function DecodeElements(s: seq<byte>, p: nat, et: TagType, depth: nat, n: nat): (r: Result<Parsed<seq<Tag>>>)
    requires p <= |s|
    ensures r.Ok? ==> p <= r.value.next <= |s|
    ensures r.Ok? ==> |r.value.value| == n
    ensures r.Ok? ==> forall i :: 0 <= i < n ==> TypeOf(r.value.value[i]) == et
    decreases |s| - p, 4, n
  {
    if n == 0 then Ok(Parsed([], p))
    else
      match DecodePayload(s, p, et, depth)
      case Err(e) => Err(e)
      case Ok(Parsed(t, q)) =>
        match DecodeElements(s, q, et, depth, n - 1)
        case Err(e) => Err(e)
        case Ok(Parsed(ts, q')) => Ok(Parsed([t] + ts, q'))
  }

  /** `readTagCompound(depth)`: named tags at `depth + 1` until one is END. */
  function DecodeCompound(s: seq<byte>, p: nat, depth: nat): (r: Result<Parsed<Tag>>)
    requires p <= |s|
    ensures r.Ok? ==> p < r.value.next <= |s|
    ensures r.Ok? ==> r.value.value.NBTCompound?
    decreases |s| - p, 2, 0
  {
    match DecodeEntries(s, p, depth + 1, [])
    case Err(e) => Err(e)
    case Ok(Parsed(es, q)) => Ok(Parsed(NBTCompound(es), q))
  }

  /** The body of the `while (true)` loop of `readTagCompound`, with the
      entries put so far: the end of the stream is an error, END stops the
      loop, any other named tag is `put`, overwriting an earlier entry of
      the same name in place. */
  function DecodeEntries(s: seq<byte>, p: nat, depth: nat, acc: seq<Entry>): (r: Result<Parsed<seq<Entry>>>)
    requires p <= |s|
    ensures r.Ok? ==> p < r.value.next <= |s|
    decreases |s| - p, 1, 0
  {
    match DecodeNamed(s, p, depth)
    case Err(e) => Err(e)
    case Ok(Parsed(None, _)) => Err(EndsInsideCompound)
    case Ok(Parsed(Some(nt), q)) =>
      if nt.tag == NBTEnd then Ok(Parsed(acc, q))
      else DecodeEntries(s, q, depth, Put(acc, nt.name, nt.tag))
  }

  /** `readNamedTag()`: reading starts at depth 0. */
  function ReadNamedTag(s: seq<byte>, p: nat): Result<Parsed<Option<NamedTag>>>
    requires p <= |s|
  {
    DecodeNamed(s, p, 0)
  }

  /** A read agrees with the specification's result `f`: the same value or
      the same error, and after a successful read the cursor is where `f`
      stopped. */
  predicate Agrees<T(==)>(r: Result<T>, f: Result<Parsed<T>>, pos: nat)
  {
    match f
    case Ok(Parsed(v, q)) => r == Ok(v) && pos == q
    case Err(e) => r == Err(e)
  }

  /** The list elements read so far, `done`, in front of what the rest of
      the loop reads. */
  function Prepend(done: seq<Tag>, rest: Result<Parsed<seq<Tag>>>): (r: Result<Parsed<seq<Tag>>>)
    ensures rest.Err? ==> r == rest
    ensures rest.Ok? ==> r == Ok(Parsed(done + rest.value.value, rest.value.next))
  {
    match rest
    case Err(e) => Err(e)
    case Ok(Parsed(ts, q)) => Ok(Parsed(done + ts, q))
  }

  /** Nothing read in front of the rest. */
  lemma PrependNothing(rest: Result<Parsed<seq<Tag>>>)
    ensures Prepend([], rest) == rest
  {
    if rest.Ok? {
      assert [] + rest.value.value == rest.value.value;
    }
  }

  /** One more element read in front of the rest. */
  lemma PrependStep(done: seq<Tag>, s: seq<byte>, p: nat, et: TagType, depth: nat, m: nat, t: Tag, q: nat)
    requires m >= 1 && p <= |s|
    requires DecodePayload(s, p, et, depth) == Ok(Parsed(t, q))
    ensures Prepend(done, DecodeElements(s, p, et, depth, m)) == Prepend(done + [t], DecodeElements(s, q, et, depth, m - 1))
  {
    var rest := DecodeElements(s, q, et, depth, m - 1);
    if rest.Ok? {
      assert done + ([t] + rest.value.value) == (done + [t]) + rest.value.value;
    }
  }

  /** `NBTInputStream` over the bytes `data`, read from the cursor `pos`.
      Every read method gives what the matching specification function gives
      at the cursor and leaves the cursor where that function stops. After
      a failed read the cursor is somewhere in the stream. */
  class NBTInputStream {
    const data: seq<byte>
    var pos: nat

    constructor (data: seq<byte>)
      ensures this.data == data && pos == 0
    {
      this.data := data;
      pos := 0;
    }

    /** `readFully`: the next `n` bytes; at end of stream the rest is
        consumed and the read fails. */
    method ReadBytes(n: nat) returns (r: Result<seq<byte>>)
      requires pos <= |data|
      modifies this
      ensures old(pos) <= pos <= |data|
      ensures Agrees(r, ReadN(data, old(pos), n), pos)
    {
      if pos + n <= |data| {
        r := Ok(data[pos..pos + n]);
        pos := pos + n;
      } else {
        r := Err(UnexpectedEndOfStream);
        pos := |data|;
      }
    }

    /** `readByte`, `readShort`, `readInt` and `readLong`: `n` bytes, signed. */
    method ReadSignedBytes(n: nat) returns (r: Result<int>)
      requires n >= 1 && pos <= |data|
      modifies this
      ensures old(pos) <= pos <= |data|
      ensures Agrees(r, ReadSigned(data, old(pos), n), pos)
    {
      var b := ReadBytes(n);
      match b
      case Err(e) => r := Err(e);
      case Ok(bs) => r := Ok(Signed(bs));
    }

    /** `readUnsignedShort`, and the bit patterns of `readFloat` and
        `readDouble`: `n` bytes, unsigned. */
    method ReadUnsignedBytes(n: nat) returns (r: Result<nat>)
      requires pos <= |data|
      modifies this
      ensures old(pos) <= pos <= |data|
      ensures Agrees(r, ReadUnsigned(data, old(pos), n), pos)
    {
      var b := ReadBytes(n);
      match b
      case Err(e) => r := Err(e);
      case Ok(bs) => r := Ok(Unsigned(bs));
    }

    /** `readString()`. */
    method ReadString() returns (r: Result<seq<byte>>)
      requires pos <= |data|
      modifies this
      ensures old(pos) <= pos <= |data|
      ensures Agrees(r, DecodeString(data, old(pos)), pos)
    {
      var length := ReadUnsignedBytes(SHORT_BYTES);
      match length
      case Err(e) => r := Err(e);
      case Ok(n) => r := ReadBytes(n);
    }

    /** `readNamedTag()`: `null` (here `None`) exactly at the end of the
        stream, and then the cursor does not move. */
    method ReadNamedTag() returns (r: Result<Option<NamedTag>>)
      requires pos <= |data|
      modifies this
      ensures old(pos) <= pos <= |data|
      ensures Agrees(r, DecodeNamed(data, old(pos), 0), pos)
      ensures r == Ok(None) <==> old(pos) == |data|
      ensures r == Ok(None) ==> pos == old(pos)
    {
      r := ReadNamedTagAt(0);
    }

    /** `readNamedTag(depth)`. */
    method ReadNamedTagAt(depth: nat) returns (r: Result<Option<NamedTag>>)
      requires pos <= |data|
      modifies this
      ensures old(pos) <= pos <= |data|
      ensures Agrees(r, DecodeNamed(data, old(pos), depth), pos)
      ensures r.Ok? && r.value.Some? ==> old(pos) < pos
      decreases |data| - pos, 0
    {
      if pos == |data| {
        return Ok(None);
      }
      var id := ToI8(data[pos]);
      pos := pos + 1;
      var ty := GetById(id);
      if ty.None? {
        return Err(InvalidTypeId(id));
      }
      var name: seq<byte> := [];
      if ty.value != End {
        var s := ReadString();
        if s.Err? {
          return Err(s.error);
        }
        name := s.value;
      }
      var t := ReadTag(ty.value, depth);
      if t.Err? {
        return Err(t.error);
      }
      r := Ok(Some(NamedTag(name, t.value)));
    }

    /** `readTag(type, depth)`. */
    method ReadTag(ty: TagType, depth: nat) returns (r: Result<Tag>)
      requires pos <= |data|
      modifies this
      ensures old(pos) <= pos <= |data|
      ensures Agrees(r, DecodePayload(data, old(pos), ty, depth), pos)
      decreases |data| - pos, 3
    {
      match ty
      case End => r := ReadTagEnd(depth);
      case Byte | Short | Int | Long | Float | Double => r := ReadScalar(ty);
      case ByteArray => r := ReadTagByteArray();
      case String => r := ReadTagString();
      case List => r := ReadTagList(depth);
      case Compound => r := ReadTagCompound(depth);
      case IntArray => r := ReadTagIntArray();
      case LongArray => r := ReadTagLongArray();
    }

    /** `readTagEnd(depth)`: the END sentinel below the top level, an error
        at it; no byte is read. */
    method ReadTagEnd(depth: nat) returns (r: Result<Tag>)
      ensures depth == 0 ==> r == Err(EndAtTopLevel)
      ensures depth > 0 ==> r == Ok(INSTANCE)
    {
      if depth == 0 {
        r := Err(EndAtTopLevel);
      } else {
        r := Ok(INSTANCE);
      }
    }

    /** The fixed-width payloads of `readTag`. */
    method ReadScalar(ty: TagType) returns (r: Result<Tag>)
      requires ty == Byte || ty == Short || ty == Int || ty == Long || ty == Float || ty == Double
      requires pos <= |data|
      modifies this
      ensures old(pos) <= pos <= |data|
      ensures Agrees(r, DecodeScalar(data, old(pos), ty), pos)
    {
      Pow256Values();
      match ty
      case Byte =>
        var v := ReadSignedBytes(1);
        r := if v.Ok? then Ok(NBTByte(v.value)) else Err(v.error);
      case Short =>
        var v := ReadSignedBytes(SHORT_BYTES);
        r := if v.Ok? then Ok(NBTShort(v.value)) else Err(v.error);
      case Int =>
        var v := ReadSignedBytes(INT_BYTES);
        r := if v.Ok? then Ok(NBTInt(v.value)) else Err(v.error);
      case Long =>
        var v := ReadSignedBytes(LONG_BYTES);
        r := if v.Ok? then Ok(NBTLong(v.value)) else Err(v.error);
      case Float =>
        var v := ReadUnsignedBytes(INT_BYTES);
        r := if v.Ok? then Ok(NBTFloat(v.value)) else Err(v.error);
      case Double =>
        var v := ReadUnsignedBytes(LONG_BYTES);
        r := if v.Ok? then Ok(NBTDouble(v.value)) else Err(v.error);
    }

    /** `readTagByteArray()`. */
    method ReadTagByteArray() returns (r: Result<Tag>)
      requires pos <= |data|
      modifies this
      ensures old(pos) <= pos <= |data|
      ensures Agrees(r, DecodeByteArray(data, old(pos)), pos)
    {
      var length := ReadSignedBytes(INT_BYTES);
      match length
      case Err(e) => r := Err(e);
      case Ok(n) =>
        if n < 0 {
          r := Err(NegativeArraySize(n));
        } else {
          var bytes := ReadBytes(n);
          match bytes
          case Err(e) => r := Err(e);
          case Ok(b) => r := Ok(NBTByteArray(SignedBytes(b)));
        }
    }

    /** `readTagString()`. */
    method ReadTagString() returns (r: Result<Tag>)
      requires pos <= |data|
      modifies this
      ensures old(pos) <= pos <= |data|
      ensures Agrees(r, DecodePayload(data, old(pos), String, 0), pos)
    {
      var s := ReadString();
      match s
      case Err(e) => r := Err(e);
      case Ok(v) => r := Ok(NBTString(v));
    }

    /** `readTagIntArray()`: the length, a new array of it, then one `readInt`
        per element. */
    method ReadTagIntArray() returns (r: Result<Tag>)
      requires pos <= |data|
      modifies this
      ensures old(pos) <= pos <= |data|
      ensures Agrees(r, DecodeIntArray(data, old(pos)), pos)
    {
      Pow256Values();
      var length := ReadSignedBytes(INT_BYTES);
      if length.Err? {
        return Err(length.error);
      }
      var n := length.value;
      if n < 0 {
        return Err(NegativeArraySize(n));
      }
      var a := new i32[n];
      var start := pos;
      for i := 0 to n
        invariant pos == start + 4 * i <= |data|
        invariant forall k :: 0 <= k < i ==> a[k] == Signed(data[start + 4 * k..start + 4 * k + 4])
      {
        var v := ReadSignedBytes(INT_BYTES);
        if v.Err? {
          return Err(v.error);
        }
        a[i] := v.value;
      }
      assert a[..] == IntsAt(data, start, n);
      r := Ok(NBTIntArray(a[..]));
    }

    /** `readTagLongArray()`: the length, a new array of it, then one
        `readLong` per element. */
    method ReadTagLongArray() returns (r: Result<Tag>)
      requires pos <= |data|
      modifies this
      ensures old(pos) <= pos <= |data|
      ensures Agrees(r, DecodeLongArray(data, old(pos)), pos)
    {
      Pow256Values();
      var length := ReadSignedBytes(INT_BYTES);
      if length.Err? {
        return Err(length.error);
      }
      var n := length.value;
      if n < 0 {
        return Err(NegativeArraySize(n));
      }
      var a := new i64[n];
      var start := pos;
      for i := 0 to n
        invariant pos == start + 8 * i <= |data|
        invariant forall k :: 0 <= k < i ==> a[k] == Signed(data[start + 8 * k..start + 8 * k + 8])
      {
        var v := ReadSignedBytes(LONG_BYTES);
        if v.Err? {
          return Err(v.error);
        }
        a[i] := v.value;
      }
      assert a[..] == LongsAt(data, start, n);
      r := Ok(NBTLongArray(a[..]));
    }

    /** `readTagList(depth)`: the element type, the length, then `length`
        payloads of that type at `depth + 1`, appended in order. */
    method ReadTagList(depth: nat) returns (r: Result<Tag>)
      requires pos <= |data|
      modifies this
      ensures old(pos) <= pos <= |data|
      ensures Agrees(r, DecodeList(data, old(pos), depth), pos)
      decreases |data| - pos, 2
    {
      var id := ReadSignedBytes(1);
      if id.Err? {
        return Err(id.error);
      }
      var elementType := GetById(id.value);
      if elementType.None? {
        return Err(InvalidTypeId(id.value));
      }
      var et := elementType.value;
      var length := ReadSignedBytes(INT_BYTES);
      if length.Err? {
        return Err(length.error);
      }
      var n := length.value;
      if et == End && n > 0 {
        return Err(NonEmptyEndList);
      }
      var elements := ReadElements(et, depth + 1, if n < 0 then 0 else n);
      if elements.Err? {
        return Err(elements.error);
      }
      r := Ok(NBTList(et, elements.value));
    }

    /** The `for` loop of `readTagList`: `n` payloads of type `et`, appended
        in order. */
    method ReadElements(et: TagType, depth: nat, n: nat) returns (r: Result<seq<Tag>>)
      requires pos <= |data|
      modifies this
      ensures old(pos) <= pos <= |data|
      ensures Agrees(r, DecodeElements(data, old(pos), et, depth, n), pos)
      decreases |data| - pos, 4
    {
      ghost var start := pos;
      var tagList: seq<Tag> := [];
      PrependNothing(DecodeElements(data, start, et, depth, n));
      var i := 0;
      while i < n
        invariant 0 <= i <= n && |tagList| == i
        invariant start <= pos <= |data|
        invariant DecodeElements(data, start, et, depth, n)
          == Prepend(tagList, DecodeElements(data, pos, et, depth, n - i))
      {
        ghost var before := pos;
        var tag := ReadTag(et, depth);
        if tag.Err? {
          return Err(tag.error);
        }
        PrependStep(tagList, data, before, et, depth, n - i, tag.value, pos);
        tagList := tagList + [tag.value];
        i := i + 1;
      }
      assert tagList + [] == tagList;
      r := Ok(tagList);
    }

    /** `readTagCompound(depth)`: named tags at `depth + 1`, each `put`, until
        END; the end of the stream before it is an error. */
    method ReadTagCompound(depth: nat) returns (r: Result<Tag>)
      requires pos <= |data|
      modifies this
      ensures old(pos) <= pos <= |data|
      ensures Agrees(r, DecodeCompound(data, old(pos), depth), pos)
      decreases |data| - pos, 2
    {
      ghost var start := pos;
      var tagMap: seq<Entry> := [];
      while true
        invariant start <= pos <= |data|
        invariant DecodeEntries(data, start, depth + 1, []) == DecodeEntries(data, pos, depth + 1, tagMap)
        decreases |data| - pos
      {
        ghost var before := pos;
        var namedTag := ReadNamedTagAt(depth + 1);
        if namedTag.Err? {
          return Err(namedTag.error);
        }
        if namedTag.value.None? {
          return Err(EndsInsideCompound);
        }
        var nt := namedTag.value.value;
        if nt.tag == NBTEnd {
          break;
        }
        tagMap := Put(tagMap, nt.name, nt.tag);
      }
      r := Ok(NBTCompound(tagMap));
    }
  }
}
