# NBT codec and Mojangson writers in Dafny

This project models the core of eisen-nbt. The library reads and writes NBT,
Minecraft's typed binary tag tree, and prints tag trees as Mojangson, its
text form. The model covers four parts:

- **The tag model.** The 13-entry `NBTType` table with its ids and its
  primitive, numeric and array flags (`nbt_type.dfy`). The tag variants as
  one `Tag` datatype (`nbt_tag.dfy`). The mutable tag classes `NBTByte`,
  `NBTShort`, `NBTLong` and `NBTByteArray`, with their Mojangson literals
  (`nbt_values.dfy`).
- **The binary codec.**
  - `NBTInputStream` is a reference decoder: pure functions that pass a read
    position along (`nbt_input.dfy`). A class with `data` and a `pos` cursor
    has one method per Java reader. Each method is proved to agree with the
    reference decoder on the result and on the position it leaves.
  - `NBTOutputStream` is a reference encoder that returns the bytes written
    and the outcome. This keeps the partial output of a failed write
    (`nbt_output.dfy`). A class appends to an `out` buffer, and each method
    is proved to append exactly what the encoder gives.
  - `nbt_roundtrip.dfy` proves that reading back what was written yields the
    same tree, for every well-formed tree, wherever it sits in the stream.
  - `nbt_cases.dfy` states the error cases and the stream test: several
    named tags written one after another read back in order until clean end
    of stream.
- **The two Mojangson writers.** Both `MojangsonWriter` classes, of package
  `eisenwave.nbt.io` (`mojangson_writer.dfy`) and of package
  `me.eisenwave.nbt.io` (`me_mojangson_writer.dfy`). Each has a fixed
  `pretty` flag, a mutable `indent` level and a text sink `out`. Both are
  proved against one layout function (`mojangson_layout.dfy`). That function
  is parameterised by the rule deciding whether a container is "simple",
  meaning printed on one line. In the first package a compound is simple
  when all its values are primitive. In the second package it must also
  have at most three entries.
- **The parse-error locator.** `MojangsonParseException.printErrorLoc` and
  the exception's message (`mojangson_error.dfy`).

Integers are unbounded in Dafny. The Java widths appear as subset types:

- `i8`, `i16`, `i32` and `i64` hold values;
- `byte` is a wire byte;
- `Bytes` gives big-endian two's-complement conversion, as
  `DataInput`/`DataOutput` do it.

Names and strings are byte sequences (their UTF-8 encoding). Mojangson
output is a `seq<char>`, and the line separator is the constant `"\n"`.

The model follows the code in these places:

- A list whose declared length is zero or negative decodes as an empty list,
  because the read loop runs zero times. Arrays with a negative length fail
  with `NegativeArraySize`, because `new T[length]` throws.
- `writeTagList` does not check that the elements have the declared element
  type. Only well-formed trees, whose elements do match, are proved to round
  trip.
- The "simple container" rule excludes END and array values as well as
  lists and compounds, because the code tests `isPrimitive`. A compound
  holding an array is therefore printed as a block.
- The two packages differ in the simple rule. Both writers are modelled.
  `MojangsonLayout.WritersAgree` and `MojangsonLayout.WritersDiffer` state
  where they agree and where they part.

## Model

| member | source | states |
|---|---|---|
| NBTType.Id | src/main/java/me/eisenwave/nbt/NBTType.java:78-80 | the id of a type is its position in the declaration order of the table (`values()[id] == t`), below 13 |
| NBTType.GetById | src/main/java/me/eisenwave/nbt/NBTType.java:63-65 | defined exactly for 0..12 (any other byte, negative ones included, has no type), and the type found has that id |
| NBTType.IdsAreOrdinals | src/main/java/me/eisenwave/nbt/NBTType.java:8-55 | the i-th declared type has id i, END = 0 through LONG_ARRAY = 12 |
| NBTType.GetByIdOfId | src/main/java/me/eisenwave/nbt/NBTType.java:63-80 | `getById(getId(t)) == t` for every type |
| NBTType.IdInjective | src/main/java/me/eisenwave/nbt/NBTType.java:49-55 | two types have the same id exactly when they are the same type |
| NBTType.Classification | src/main/java/me/eisenwave/nbt/NBTType.java:8-117 | primitive is exactly BYTE..DOUBLE and STRING; numeric is exactly BYTE..DOUBLE (ids 1..6) and implies primitive; array is exactly the three array types, none primitive; END, LIST and COMPOUND are neither |
| NBTType.NamesDistinct | src/main/java/me/eisenwave/nbt/NBTType.java:82-122 | every `toString()` name starts with "TAG_" and distinct types have distinct names |
| NBTTag.TypeOf | src/main/java/eisenwave/nbt/NBTEnd.java:17-20 | `getType()` is END exactly for the END sentinel |
| NBTTag.CloneEnd | src/main/java/eisenwave/nbt/NBTEnd.java:34-37 | `clone()` returns a new `NBTEnd` object; END carries no value, so as a tag value it is the END tag, of type END, and it equals `INSTANCE` under `NBTEnd.equals` (`NBTValues.EndEqualsMeaning`) |
| NBTValues.EndEqualsMeaning | src/main/java/eisenwave/nbt/NBTEnd.java:24-37 | `equals` holds exactly for END tags, so every END (a clone included) equals `INSTANCE` |
| NBTTag.NamedTagEquals | src/main/java/eisenwave/nbt/NBTNamedTag.java:47-49 | `equals(NBTNamedTag)`: equal names and tags equal under the tag's own `equals`, which is a parameter |
| NBTTag.NamedTagEqualsLaws | src/main/java/eisenwave/nbt/NBTNamedTag.java:47-49 | named-tag equality is reflexive, symmetric and transitive wherever tag equality is, and different names are never equal |
| NBTValues.NamedEndsEqual | src/main/java/eisenwave/nbt/NBTNamedTag.java:47-49 | with `NBTEnd.equals` as tag equality on END, a named END equals a named tag of the same name exactly when that one holds an END |
| NBTTag.IndexOf | src/main/java/eisenwave/nbt/io/NBTInputStream.java:160 | the position of a key among the compound's entries: none exactly when the key is absent, otherwise its first occurrence |
| NBTTag.Put | src/main/java/eisenwave/nbt/io/NBTInputStream.java:160 | `put` keeps the length or appends exactly one new entry at the end |
| NBTTag.PutGet | src/main/java/eisenwave/nbt/io/NBTInputStream.java:160 | after `put(k, v)` looking up k gives v and every other key gives what it gave before |
| NBTTag.PutOrder | src/main/java/eisenwave/nbt/io/NBTInputStream.java:160 | a new key is appended last; an existing key is overwritten in place, so the key order is unchanged |
| NBTTag.PutDistinct | src/main/java/eisenwave/nbt/io/NBTInputStream.java:160 | `put` keeps the keys distinct |
| NBTTag.WellFormedNotEnd | src/main/java/eisenwave/nbt/io/NBTInputStream.java:140-141 | a well-formed tree is never END, and a non-empty well-formed list has a non-END element type equal to its first element's type |
| NBTValues.UnsignedByte | src/main/java/eisenwave/nbt/NBTByte.java:36 | `Byte.toUnsignedInt`: v for v ≥ 0, v + 256 for negative v, always below 256 |
| NBTValues.ByteTextMeaning | src/main/java/eisenwave/nbt/NBTByte.java:36 | the byte literal is the digits of the unsigned value followed by 'b', with no '-', and those digits read back as the unsigned value |
| NBTValues.ByteTextInjective | src/main/java/eisenwave/nbt/NBTByte.java:36 | distinct bytes have distinct literals |
| NBTValues.ShortTextMeaning | src/main/java/me/eisenwave/nbt/NBTShort.java:35-37 | the short literal is the signed decimal of the value followed by 's', and reads back as the value |
| NBTValues.LongTextMeaning | src/main/java/me/eisenwave/nbt/NBTLong.java:35-37 | the long literal is the signed decimal of the value followed by 'L', and reads back as the value |
| Text.IntString | src/main/java/me/eisenwave/nbt/NBTShort.java:36 | Java's decimal rendering starts with '-' exactly for negative values, followed by the digits of the magnitude |
| Text.IntStringValue | src/main/java/me/eisenwave/nbt/NBTLong.java:36 | reading the decimal rendering of v back gives v |
| Text.IntStringInjective | src/main/java/me/eisenwave/nbt/NBTLong.java:36 | distinct values render differently |
| Text.SplitJoin | src/main/java/me/eisenwave/nbt/NBTByteArray.java:43-45 | parts joined with a single separator character that none contains are recovered by splitting at that character |
| NBTValues.ByteTag.constructor | src/main/java/eisenwave/nbt/NBTByte.java:10-12 | the new tag holds the given value |
| NBTValues.ByteTag.GetByteValue | src/main/java/eisenwave/nbt/NBTByte.java:14-21 | `getValue`/`getByteValue` return the stored value |
| NBTValues.ByteTag.SetByteValue | src/main/java/eisenwave/nbt/NBTByte.java:23-25 | `setByteValue` replaces the stored value and changes nothing else |
| NBTValues.ByteTag.GetType | src/main/java/eisenwave/nbt/NBTByte.java:27-30 | the type is BYTE |
| NBTValues.ByteTag.AsTag | src/main/java/eisenwave/nbt/NBTByte.java:14-30 | the tag value the object holds is a BYTE tag with the stored value, of the object's type |
| NBTValues.ByteTag.ToMsonString | src/main/java/eisenwave/nbt/NBTByte.java:34-37 | the object's literal is the BYTE literal of its tag value |
| NBTValues.ByteTag.Clone | src/main/java/eisenwave/nbt/NBTByte.java:39-42 | `clone()` is a new object holding the same value |
| NBTValues.ShortTag.constructor | src/main/java/me/eisenwave/nbt/NBTShort.java:10-12 | the new tag holds the given value |
| NBTValues.ShortTag.GetShortValue | src/main/java/me/eisenwave/nbt/NBTShort.java:14-21 | `getValue`/`getShortValue` return the stored value |
| NBTValues.ShortTag.SetShortValue | src/main/java/me/eisenwave/nbt/NBTShort.java:23-25 | `setShortValue` replaces the stored value and changes nothing else |
| NBTValues.ShortTag.GetType | src/main/java/me/eisenwave/nbt/NBTShort.java:27-30 | the type is SHORT |
| NBTValues.ShortTag.AsTag | src/main/java/me/eisenwave/nbt/NBTShort.java:14-30 | the tag value the object holds is a SHORT tag with the stored value, of the object's type |
| NBTValues.ShortTag.ToMsonString | src/main/java/me/eisenwave/nbt/NBTShort.java:34-37 | the object's literal is the SHORT literal of its tag value |
| NBTValues.ShortTag.Clone | src/main/java/me/eisenwave/nbt/NBTShort.java:39-42 | `clone()` is a new object holding the same value |
| NBTValues.LongTag.constructor | src/main/java/me/eisenwave/nbt/NBTLong.java:10-12 | the new tag holds the given value |
| NBTValues.LongTag.GetLongValue | src/main/java/me/eisenwave/nbt/NBTLong.java:14-21 | `getValue`/`getLongValue` return the stored value |
| NBTValues.LongTag.SetLongValue | src/main/java/me/eisenwave/nbt/NBTLong.java:23-25 | `setLongValue` replaces the stored value and changes nothing else |
| NBTValues.LongTag.GetType | src/main/java/me/eisenwave/nbt/NBTLong.java:27-30 | the type is LONG |
| NBTValues.LongTag.AsTag | src/main/java/me/eisenwave/nbt/NBTLong.java:14-30 | the tag value the object holds is a LONG tag with the stored value, of the object's type |
| NBTValues.LongTag.ToMsonString | src/main/java/me/eisenwave/nbt/NBTLong.java:34-37 | the object's literal is the LONG literal of its tag value |
| NBTValues.LongTag.Clone | src/main/java/me/eisenwave/nbt/NBTLong.java:39-42 | `clone()` is a new object holding the same value |
| NBTValues.ByteValue | src/main/java/me/eisenwave/nbt/NBTByteArray.java:17 | `Number.byteValue()` of an integer: the signed byte congruent to it modulo 256 |
| NBTValues.ByteArrayTag.constructor | src/main/java/me/eisenwave/nbt/NBTByteArray.java:10-12 | the tag wraps the given array |
| NBTValues.ByteArrayTag.FromNumbers | src/main/java/me/eisenwave/nbt/NBTByteArray.java:14-18 | a fresh array of the same length whose element i is `numbers[i].byteValue()` |
| NBTValues.ByteArrayTag.Length | src/main/java/me/eisenwave/nbt/NBTByteArray.java:25-27 | `length()` is the length of the wrapped array |
| NBTValues.ByteArrayTag.GetType | src/main/java/me/eisenwave/nbt/NBTByteArray.java:34-37 | the type is BYTE_ARRAY |
| NBTValues.ByteArrayTag.AsTag | src/main/java/me/eisenwave/nbt/NBTByteArray.java:29-32 | `getValue()` as a tag value: a BYTE_ARRAY tag holding the array's current contents |
| NBTValues.ByteArrayTag.ToMsonString | src/main/java/me/eisenwave/nbt/NBTByteArray.java:39-49 | the builder loop produces the byte-array literal of the array's contents |
| NBTValues.ByteElementHasNoComma | src/main/java/me/eisenwave/nbt/NBTByteArray.java:46 | an element's text never contains the ',' separator |
| NBTValues.ByteArrayTextMeaning | src/main/java/me/eisenwave/nbt/NBTByteArray.java:39-49 | the literal starts with "[B;" and ends with "]" ("[B;]" when empty); splitting the inside at ',' gives, in order, each element's signed decimal followed by 'B' |
| Bytes.UnsignedRoundTrip | src/main/java/eisenwave/nbt/io/NBTInputStream.java:185 | an unsigned n-byte big-endian read of a value written in n bytes gives the value back, for values in 0..256^n |
| Bytes.SignedBigEndian | src/main/java/eisenwave/nbt/io/NBTInputStream.java:103-108 | a signed n-byte big-endian read of a value in the signed n-byte range gives the value back |
| Bytes.UnsignedBigEndian | src/main/java/eisenwave/nbt/io/NBTOutputStream.java:44-45 | writing v in n bytes keeps v modulo 256^n: the unsigned reading is v, or v + 256^n for negative v |
| Bytes.BigEndianUnsigned | src/main/java/eisenwave/nbt/io/NBTInputStream.java:103-108 | every byte sequence is the big-endian writing of its unsigned value |
| NBTInput.ToI8 | src/main/java/eisenwave/nbt/io/NBTInputStream.java:72 | the cast `(byte) id` of one wire byte is its two's-complement value |
| NBTInput.ReadN | src/main/java/eisenwave/nbt/io/NBTInputStream.java:128 | `readFully` of n bytes succeeds exactly when n bytes remain, gives them and advances by n; otherwise end of stream |
| NBTInput.ReadSigned | src/main/java/eisenwave/nbt/io/NBTInputStream.java:103-108 | `readShort`/`readInt`/`readLong`: the signed big-endian value of the next n bytes, end of stream when fewer remain |
| NBTInput.ReadUnsigned | src/main/java/eisenwave/nbt/io/NBTInputStream.java:185 | `readUnsignedShort`: the unsigned big-endian value of the next bytes, end of stream when fewer remain |
| NBTInput.DecodeString | src/main/java/eisenwave/nbt/io/NBTInputStream.java:184-190 | succeeds exactly when the u16 length and that many bytes are present, and gives exactly those bytes; otherwise end of stream |
| NBTInput.ReadArrayLength | src/main/java/eisenwave/nbt/io/NBTInputStream.java:126-127 | an i32 length, never negative on success; a negative length is a `NegativeArraySize` error |
| NBTInput.SignedBytes | src/main/java/eisenwave/nbt/io/NBTInputStream.java:128 | the bytes read into a `byte[]`, element by element as signed values |
| NBTInput.DecodeByteArray | src/main/java/eisenwave/nbt/io/NBTInputStream.java:125-130 | on success, an i32 length n and then exactly n bytes, as a BYTE_ARRAY of those signed bytes |
| NBTInput.DecodeIntArray | src/main/java/eisenwave/nbt/io/NBTInputStream.java:166-173 | on success, an i32 length n and then exactly n 4-byte big-endian ints |
| NBTInput.DecodeLongArray | src/main/java/eisenwave/nbt/io/NBTInputStream.java:175-182 | on success, an i32 length n and then exactly n 8-byte big-endian longs |
| NBTInput.DecodeNamed | src/main/java/eisenwave/nbt/io/NBTInputStream.java:69-77 | nothing read (null) exactly at end of stream, consuming nothing; otherwise a tag that consumed at least its type byte |
| NBTInput.DecodeScalar | src/main/java/eisenwave/nbt/io/NBTInputStream.java:103-108 | a fixed-width payload of the requested type: succeeds exactly when its width remains and advances by it |
| NBTInput.DecodePayload | src/main/java/eisenwave/nbt/io/NBTInputStream.java:100-117 | `readTag(type, depth)`: on success a tag of the requested type, within the input |
| NBTInput.DecodeList | src/main/java/eisenwave/nbt/io/NBTInputStream.java:136-150 | a list, after at least its element-type byte and i32 length |
| NBTInput.DecodeElements | src/main/java/eisenwave/nbt/io/NBTInputStream.java:143-147 | exactly n payloads, all of the declared element type |
| NBTInput.DecodeCompound | src/main/java/eisenwave/nbt/io/NBTInputStream.java:152-164 | a compound, after at least its terminating END byte |
| NBTInput.DecodeEntries | src/main/java/eisenwave/nbt/io/NBTInputStream.java:154-161 | the entry loop ends past the END byte that stops it |
| NBTInput.NBTInputStream.constructor | src/main/java/eisenwave/nbt/io/NBTInputStream.java:26-28 | a stream over the given data with the cursor at its start |
| NBTInput.NBTInputStream.ReadBytes | src/main/java/eisenwave/nbt/io/NBTInputStream.java:128 | agrees with `ReadN` on the result and the new cursor |
| NBTInput.NBTInputStream.ReadSignedBytes | src/main/java/eisenwave/nbt/io/NBTInputStream.java:103-108 | agrees with `ReadSigned` |
| NBTInput.NBTInputStream.ReadUnsignedBytes | src/main/java/eisenwave/nbt/io/NBTInputStream.java:185 | agrees with `ReadUnsigned` |
| NBTInput.NBTInputStream.ReadString | src/main/java/eisenwave/nbt/io/NBTInputStream.java:184-190 | agrees with `DecodeString` |
| NBTInput.NBTInputStream.ReadNamedTag | src/main/java/eisenwave/nbt/io/NBTInputStream.java:47-49 | `readNamedTag()` is depth 0; null exactly at end of stream, with the cursor unmoved |
| NBTInput.NBTInputStream.ReadNamedTagAt | src/main/java/eisenwave/nbt/io/NBTInputStream.java:69-77 | agrees with `DecodeNamed`; a tag read moves the cursor forward |
| NBTInput.NBTInputStream.ReadTag | src/main/java/eisenwave/nbt/io/NBTInputStream.java:100-117 | agrees with `DecodePayload` for every type |
| NBTInput.NBTInputStream.ReadTagEnd | src/main/java/eisenwave/nbt/io/NBTInputStream.java:119-123 | an error at depth 0, otherwise the END sentinel with nothing read |
| NBTInput.NBTInputStream.ReadScalar | src/main/java/eisenwave/nbt/io/NBTInputStream.java:103-108 | agrees with `DecodeScalar` |
| NBTInput.NBTInputStream.ReadTagByteArray | src/main/java/eisenwave/nbt/io/NBTInputStream.java:125-130 | agrees with `DecodeByteArray` |
| NBTInput.NBTInputStream.ReadTagString | src/main/java/eisenwave/nbt/io/NBTInputStream.java:132-134 | agrees with the STRING payload decoder |
| NBTInput.NBTInputStream.ReadTagIntArray | src/main/java/eisenwave/nbt/io/NBTInputStream.java:166-173 | the filling loop agrees with `DecodeIntArray` |
| NBTInput.NBTInputStream.ReadTagLongArray | src/main/java/eisenwave/nbt/io/NBTInputStream.java:175-182 | the filling loop agrees with `DecodeLongArray` |
| NBTInput.NBTInputStream.ReadTagList | src/main/java/eisenwave/nbt/io/NBTInputStream.java:136-150 | agrees with `DecodeList` |
| NBTInput.NBTInputStream.ReadElements | src/main/java/eisenwave/nbt/io/NBTInputStream.java:143-147 | the element loop agrees with `DecodeElements` |
| NBTInput.NBTInputStream.ReadTagCompound | src/main/java/eisenwave/nbt/io/NBTInputStream.java:152-164 | the `while (true)` put loop agrees with `DecodeCompound` |
| NBTOutput.ByteOf | src/main/java/eisenwave/nbt/io/NBTOutputStream.java:110 | a Java byte written to the stream: v for v ≥ 0, v + 256 for negative v |
| NBTOutput.UnsignedBytes | src/main/java/eisenwave/nbt/io/NBTOutputStream.java:107-111 | `write(byte[])` writes each element, in order, as its wire byte |
| NBTOutput.IntsBytes | src/main/java/eisenwave/nbt/io/NBTOutputStream.java:149-153 | the ints take exactly 4 bytes each |
| NBTOutput.LongsBytes | src/main/java/eisenwave/nbt/io/NBTOutputStream.java:161-165 | the longs take exactly 8 bytes each |
| NBTOutput.IntsBytesNext | src/main/java/eisenwave/nbt/io/NBTOutputStream.java:151-152 | each round of the int loop appends the next int big-endian in 4 bytes |
| NBTOutput.LongsBytesNext | src/main/java/eisenwave/nbt/io/NBTOutputStream.java:163-164 | each round of the long loop appends the next long big-endian in 8 bytes |
| NBTOutput.EncodeString | src/main/java/eisenwave/nbt/io/NBTOutputStream.java:95-99 | a string takes its 2-byte length plus its bytes |
| NBTOutput.StringLayout | src/main/java/eisenwave/nbt/io/NBTOutputStream.java:95-99 | the bytes follow the 2-byte length prefix, which reads back as the length when it is below 65536 |
| NBTOutput.EncodeNamed | src/main/java/eisenwave/nbt/io/NBTOutputStream.java:38-52 | a named tag takes at least its type byte, 2-byte name length and name |
| NBTOutput.NamedLayout | src/main/java/eisenwave/nbt/io/NBTOutputStream.java:38-52 | the type-id byte, then the name's length and bytes, come first; a named END fails with exactly that header already written |
| NBTOutput.ListPayload | src/main/java/eisenwave/nbt/io/NBTOutputStream.java:119-128 | a list writes its declared element type id (also when empty), its i32 size, then each element's bare payload |
| NBTOutput.CompoundDone | src/main/java/eisenwave/nbt/io/NBTOutputStream.java:136-141 | a compound writes each entry as a named tag in order, then a single END byte; a failing entry stops the write |
| NBTOutput.ElementsStopAt | src/main/java/eisenwave/nbt/io/NBTOutputStream.java:126-127 | once an element fails, later elements add nothing |
| NBTOutput.EntriesStopAt | src/main/java/eisenwave/nbt/io/NBTOutputStream.java:137-139 | once an entry fails, later entries add nothing |
| NBTOutput.NBTOutputStream.constructor | src/main/java/eisenwave/nbt/io/NBTOutputStream.java:28-30 | nothing written |
| NBTOutput.NBTOutputStream.WriteBigEndian | src/main/java/eisenwave/nbt/io/NBTOutputStream.java:44-45 | `writeByte`/`writeShort`/`writeInt`/`writeLong` append the value big-endian in n bytes |
| NBTOutput.NBTOutputStream.Write | src/main/java/eisenwave/nbt/io/NBTOutputStream.java:46 | `write(byte[])` appends the bytes |
| NBTOutput.NBTOutputStream.WriteNamedTag | src/main/java/eisenwave/nbt/io/NBTOutputStream.java:38-52 | appends exactly what `EncodeNamed` gives and reports its outcome, a named END included |
| NBTOutput.NBTOutputStream.WriteNamed | src/main/java/eisenwave/nbt/io/NBTOutputStream.java:60-62 | the same for an `NBTNamedTag` |
| NBTOutput.NBTOutputStream.WriteTag | src/main/java/eisenwave/nbt/io/NBTOutputStream.java:70-87 | appends exactly the payload encoding of the tag (nothing for END) and reports its outcome |
| NBTOutput.NBTOutputStream.WriteTagString | src/main/java/eisenwave/nbt/io/NBTOutputStream.java:95-99 | appends the u16 length and the bytes |
| NBTOutput.NBTOutputStream.WriteTagByteArray | src/main/java/eisenwave/nbt/io/NBTOutputStream.java:107-111 | appends the i32 length and the bytes |
| NBTOutput.NBTOutputStream.WriteTagList | src/main/java/eisenwave/nbt/io/NBTOutputStream.java:119-128 | the element loop appends exactly the list's payload encoding |
| NBTOutput.NBTOutputStream.WriteTagCompound | src/main/java/eisenwave/nbt/io/NBTOutputStream.java:136-141 | the entry loop appends exactly the compound's payload encoding |
| NBTOutput.NBTOutputStream.WriteTagIntArray | src/main/java/eisenwave/nbt/io/NBTOutputStream.java:149-153 | appends the i32 length, then each int big-endian |
| NBTOutput.NBTOutputStream.WriteTagLongArray | src/main/java/eisenwave/nbt/io/NBTOutputStream.java:161-165 | appends the i32 length, then each long big-endian |
| NBTRoundTrip.PayloadPasses | src/main/java/eisenwave/nbt/io/NBTOutputStream.java:70-87 | writing a well-formed tree never fails |
| NBTRoundTrip.NamedPasses | src/main/java/eisenwave/nbt/io/NBTOutputStream.java:38-52 | writing a well-formed tree under any name never fails |
| NBTRoundTrip.StringRoundTrip | src/main/java/eisenwave/nbt/io/NBTInputStream.java:184-190 | a string shorter than 65536 bytes reads back as itself, consuming exactly its encoding |
| NBTRoundTrip.ScalarRoundTrip | src/main/java/eisenwave/nbt/io/NBTInputStream.java:103-108 | every fixed-width tag reads back as itself, consuming exactly its encoding |
| NBTRoundTrip.ByteArrayRoundTrip | src/main/java/eisenwave/nbt/io/NBTInputStream.java:125-130 | a byte array reads back as itself, consuming 4 + n bytes |
| NBTRoundTrip.IntArrayRoundTrip | src/main/java/eisenwave/nbt/io/NBTInputStream.java:166-173 | an int array reads back as itself, consuming 4 + 4n bytes |
| NBTRoundTrip.LongArrayRoundTrip | src/main/java/eisenwave/nbt/io/NBTInputStream.java:175-182 | a long array reads back as itself, consuming 4 + 8n bytes |
| NBTRoundTrip.ArrayRoundTrip | src/main/java/eisenwave/nbt/io/NBTInputStream.java:109-114 | each length-prefixed tag (string and arrays) reads back as itself |
| NBTRoundTrip.ElementsRoundTrip | src/main/java/eisenwave/nbt/io/NBTInputStream.java:143-147 | the written elements of a well-formed list read back, in order, consuming exactly their bytes |
| NBTRoundTrip.EntriesRoundTrip | src/main/java/eisenwave/nbt/io/NBTInputStream.java:154-161 | the written entries with distinct keys, followed by END, read back in order through `put` |
| NBTRoundTrip.ListRoundTrip | src/main/java/eisenwave/nbt/io/NBTInputStream.java:136-150 | a well-formed list reads back as itself, its declared element type included |
| NBTRoundTrip.CompoundRoundTrip | src/main/java/eisenwave/nbt/io/NBTInputStream.java:152-164 | a well-formed compound reads back as itself, with the same entries in the same order |
| NBTRoundTrip.PayloadRoundTrip | src/main/java/eisenwave/nbt/io/NBTInputStream.java:100-117 | every well-formed payload, at any depth, reads back as itself, consuming exactly its encoding |
| NBTRoundTrip.NamedRoundTrip | src/main/java/eisenwave/nbt/io/NBTInputStream.java:69-77 | a well-formed named tag written anywhere reads back as itself, consuming exactly its encoding |
| NBTRoundTrip.ReadAfterWrite | src/main/java/eisenwave/nbt/io/NBTInputStream.java:47-49 | `readNamedTag()` after `writeNamedTag` gives the named tag back, with the cursor just past it |
| NBTRoundTrip.DecodeEncode | src/main/java/eisenwave/nbt/io/NBTOutputStream.java:38-52 | decoding the encoding of a well-formed named tag is that named tag, consuming all of it |
| NBTCases.InvalidTypeByte | src/main/java/eisenwave/nbt/io/NBTInputStream.java:70-72 | a type byte outside 0..12 is an invalid-id error |
| NBTCases.EndAtTopLevelFails | src/main/java/eisenwave/nbt/io/NBTInputStream.java:119-121 | END at depth 0 is an error |
| NBTCases.EndInside | src/main/java/eisenwave/nbt/io/NBTInputStream.java:74 | END at depth > 0 reads no name and no payload: the sentinel with name "", one byte consumed |
| NBTCases.NameBeforePayload | src/main/java/eisenwave/nbt/io/NBTInputStream.java:74-76 | every other type reads its name string first, and a name cut short is end of stream |
| NBTCases.NonEmptyEndListFails | src/main/java/eisenwave/nbt/io/NBTInputStream.java:140-141 | a list of element type END with a positive length is an error |
| NBTCases.NonPositiveLengthIsEmpty | src/main/java/eisenwave/nbt/io/NBTInputStream.java:143-149 | a list length of zero or less reads no elements and keeps the declared element type |
| NBTCases.CompoundCutShort | src/main/java/eisenwave/nbt/io/NBTInputStream.java:155-156 | end of stream before the compound's END is an error |
| NBTCases.NegativeArrayLength | src/main/java/eisenwave/nbt/io/NBTInputStream.java:126-127 | a negative array length is a `NegativeArraySize` error |
| NBTCases.NamedEndWrite | src/main/java/eisenwave/nbt/io/NBTOutputStream.java:44-49 | writing a named END leaves its type byte and name written, then fails |
| NBTCases.ReadAll | src/test/java/me/eisenwave/nbt/io/NBTIOTest.java:44-47 | the read loop until null: nothing at end of stream |
| NBTCases.WriteAll | src/test/java/me/eisenwave/nbt/io/NBTIOTest.java:24-36 | writing named tags one after another: no bytes exactly when there is no tag |
| NBTCases.ReadAllWriteAll | src/test/java/me/eisenwave/nbt/io/NBTIOTest.java:24-47 | well-formed named tags written in sequence anywhere read back, in order, until clean end of stream |
| NBTCases.ReadBackStream | src/test/java/me/eisenwave/nbt/io/NBTIOTest.java:20-48 | a stream holding only the written tags reads back as exactly those tags |
| MojangsonLayout.IndentationSpaces | src/main/java/eisenwave/nbt/io/MojangsonWriter.java:171-179 | the indentation is 4 spaces per level and nothing at level 0 or below |
| MojangsonLayout.BareKeyText | src/main/java/eisenwave/nbt/io/MojangsonWriter.java:102-112 | a key matching `[A-Za-z0-9._+-]+` is printed bare, as its own characters (no ',', ':', ' ' or newline); any other key is printed as the quoted string literal |
| MojangsonLayout.RulesCompared | src/main/java/me/eisenwave/nbt/io/MojangsonWriter.java:210-218 | a compound simple under the at-most-three rule is simple under the all-primitive rule; the rules agree up to three entries, and more than three is never simple under the second |
| MojangsonLayout.PlainIsMson | src/main/java/eisenwave/nbt/io/MojangsonWriter.java:59-63 | without pretty printing every tag is printed as its `toMSONString()` |
| MojangsonLayout.LeavesAreMson | src/main/java/eisenwave/nbt/io/MojangsonWriter.java:65-68 | every type is END, primitive, array, compound or list; the first three print as `toMSONString()` |
| MojangsonLayout.PrettyContainers | src/main/java/eisenwave/nbt/io/MojangsonWriter.java:69-73 | in pretty mode compounds and lists are laid out by the container rules |
| MojangsonLayout.EmptyContainers | src/main/java/eisenwave/nbt/io/MojangsonWriter.java:85-123 | an empty compound prints "{}" and an empty list "[]", with no newline |
| MojangsonLayout.SimpleCompoundIsFlat | src/main/java/eisenwave/nbt/io/MojangsonWriter.java:99-105 | a simple compound prints on one line as `{k: v, k: v}` |
| MojangsonLayout.SimpleListIsFlat | src/main/java/eisenwave/nbt/io/MojangsonWriter.java:143-147 | a simple list prints on one line as `[v, v]` |
| MojangsonLayout.BlockFrame | src/main/java/eisenwave/nbt/io/MojangsonWriter.java:90-120 | a block opens with the bracket, a newline and one more level of indentation, separates parts with "," and a newline, and closes with a newline at the restored level before the bracket |
| MojangsonLayout.WritersAgree | src/main/java/me/eisenwave/nbt/io/MojangsonWriter.java:210-218 | on trees with no compound over three entries the two writers print the same text |
| MojangsonLayout.WritersDiffer | src/main/java/me/eisenwave/nbt/io/MojangsonWriter.java:211-212 | a compound of more than three primitive values is one line in the first writer and a block in the second |
| NBTType.Name | src/main/java/me/eisenwave/nbt/NBTType.java:82-84 | `getName()`: the "TAG_…" name of each type, in the order of the table |
| NBTType.IsPrimitive | src/main/java/me/eisenwave/nbt/NBTType.java:106-108 | `isPrimitive()`: the primitive column of the table |
| NBTType.IsNumeric | src/main/java/me/eisenwave/nbt/NBTType.java:96-98 | `isNumeric()`: the numeric column of the table |
| NBTType.IsArray | src/main/java/me/eisenwave/nbt/NBTType.java:115-117 | `isArray()`: the array column of the table |
| NBTTag.Get | src/main/java/eisenwave/nbt/io/MojangsonWriter.java:104 | `map.get(key)`: the value of the first entry with that key, none when the key is absent |
| Bytes.BigEndian | src/main/java/eisenwave/nbt/io/NBTOutputStream.java:44-45 | `writeByte`/`writeShort`/`writeInt`/`writeLong`: the low n bytes of the value, most significant first, so out-of-range values wrap |
| Bytes.Unsigned | src/main/java/eisenwave/nbt/io/NBTInputStream.java:185 | `readUnsignedShort`: the bytes as an unsigned big-endian number, below 256^n |
| Bytes.Signed | src/main/java/eisenwave/nbt/io/NBTInputStream.java:103-106 | `readShort`/`readInt`/`readLong`: the bytes as a two's-complement big-endian number, in the signed n-byte range |
| NBTValues.ByteText | src/main/java/eisenwave/nbt/NBTByte.java:36 | the BYTE literal: the unsigned decimal of the value, then 'b' (its meaning is `ByteTextMeaning`) |
| NBTValues.ShortText | src/main/java/me/eisenwave/nbt/NBTShort.java:36 | the SHORT literal: the signed decimal, then 's' (its meaning is `ShortTextMeaning`) |
| NBTValues.LongText | src/main/java/me/eisenwave/nbt/NBTLong.java:36 | the LONG literal: the signed decimal, then 'L' (its meaning is `LongTextMeaning`) |
| NBTValues.ByteArrayText | src/main/java/me/eisenwave/nbt/NBTByteArray.java:39-49 | the BYTE_ARRAY literal: "[B;", the elements' signed decimals each followed by 'B' and joined by ',', then "]" (its meaning is `ByteArrayTextMeaning`) |
| NBTValues.EndEquals | src/main/java/eisenwave/nbt/NBTEnd.java:24-27 | `NBTEnd.equals(obj)`: `obj instanceof NBTEnd` |
| NBTValues.MsonText | src/main/java/eisenwave/nbt/io/MojangsonWriter.java:61 | `toMSONString()` dispatched on the variant: "END" for END, the literals above for BYTE, SHORT, LONG and BYTE_ARRAY, the renderer parameter for the others |
| NBTOutput.EncodePayload | src/main/java/eisenwave/nbt/io/NBTOutputStream.java:70-87 | what `writeTag` writes for each type, and whether it completes: nothing for END, the fixed-width big-endian value for numbers and bit patterns, the length-prefixed forms for strings and arrays, the list and compound forms (`ListPayload`, `CompoundDone`) |
| NBTOutput.EncodeElements | src/main/java/eisenwave/nbt/io/NBTOutputStream.java:126-127 | the payloads of the first n elements written in order, stopping at the first failure (`ElementsStopAt`) |
| NBTOutput.EncodeEntries | src/main/java/eisenwave/nbt/io/NBTOutputStream.java:137-139 | the first n entries written as named tags in order, stopping at the first failure (`EntriesStopAt`) |
| MojangsonLayout.Indentation | src/main/java/eisenwave/nbt/io/MojangsonWriter.java:171-179 | `indent()`: four spaces per level (`IndentationSpaces`) |
| MojangsonLayout.LineEnd | src/main/java/eisenwave/nbt/io/MojangsonWriter.java:186-189 | `endLn()`: a newline, then the indentation of the level |
| MojangsonLayout.KeyText | src/main/java/eisenwave/nbt/io/MojangsonWriter.java:102 | a key bare when it matches `[A-Za-z0-9._+-]+`, otherwise its quoted string literal (`BareKeyText`) |
| MojangsonLayout.CompoundSimple | src/main/java/eisenwave/nbt/io/MojangsonWriter.java:224-231 | `isPrimitive(compound)` and, for the second writer, `isSimple(compound)`: every value primitive, and at most three entries under the second rule |
| MojangsonLayout.ListSimple | src/main/java/eisenwave/nbt/io/MojangsonWriter.java:220-222 | `isPrimitive(list)`: empty or of a primitive element type |
| MojangsonLayout.TagText | src/main/java/eisenwave/nbt/io/MojangsonWriter.java:59-77 | the text `writeTag` prints at an indent level: `toMSONString()` when not pretty and for leaves, the container layouts otherwise (`PlainIsMson`, `LeavesAreMson`, `PrettyContainers`) |
| MojangsonLayout.Block | src/main/java/eisenwave/nbt/io/MojangsonWriter.java:85-123 | the bracket, then nothing when empty, one line joined by ", " when simple, or a block (`BlockFrame`), then the closing bracket |
| MojangsonLayout.CompoundText | src/main/java/eisenwave/nbt/io/MojangsonWriter.java:79-124 | `writeCompound` in pretty mode: the entries as `key: value` laid out as a block by the compound's simple rule (`SimpleCompoundIsFlat`, `EmptyContainers`) |
| MojangsonLayout.ListText | src/main/java/eisenwave/nbt/io/MojangsonWriter.java:126-164 | `writeList` in pretty mode: the elements laid out as a block by the list's simple rule (`SimpleListIsFlat`, `EmptyContainers`) |
| MojangsonLayout.NamePrefix | src/main/java/eisenwave/nbt/io/MojangsonWriter.java:46-50 | what `writeNamedTag` prints before the value: nothing for an empty name, otherwise the quoted name, ':' and a space when pretty |
| MojangsonLayout.NamedText | src/main/java/eisenwave/nbt/io/MojangsonWriter.java:45-53 | `writeNamedTag(name, root)`: the name prefix, then the tag's text |
| EisenwaveWriter.IsPrimitiveCompound | src/main/java/eisenwave/nbt/io/MojangsonWriter.java:224-231 | the scan returns true exactly when the compound is empty or every value's type is primitive |
| EisenwaveWriter.MojangsonWriter.constructor | src/main/java/eisenwave/nbt/io/MojangsonWriter.java:31-34 | the given `pretty` flag, nothing written, indent 0 |
| EisenwaveWriter.MojangsonWriter.Plain | src/main/java/eisenwave/nbt/io/MojangsonWriter.java:41-43 | pretty printing off, nothing written, indent 0 |
| EisenwaveWriter.MojangsonWriter.Write | src/main/java/eisenwave/nbt/io/MojangsonWriter.java:193-201 | the text is passed on unchanged |
| EisenwaveWriter.MojangsonWriter.Indent | src/main/java/eisenwave/nbt/io/MojangsonWriter.java:171-179 | writes exactly the indentation of the current level |
| EisenwaveWriter.MojangsonWriter.EndLn | src/main/java/eisenwave/nbt/io/MojangsonWriter.java:186-189 | writes a newline and the indentation of the current level |
| EisenwaveWriter.MojangsonWriter.WriteNamedTag | src/main/java/eisenwave/nbt/io/MojangsonWriter.java:45-53 | an empty name writes only the value; otherwise the quoted name, ':', a space only when pretty, then the value; indent unchanged |
| EisenwaveWriter.MojangsonWriter.WriteNamed | src/main/java/eisenwave/nbt/io/MojangsonWriter.java:55-57 | the same for an `NBTNamedTag` |
| EisenwaveWriter.MojangsonWriter.WriteTag | src/main/java/eisenwave/nbt/io/MojangsonWriter.java:59-77 | writes the tag's layout text at the current level; `toMSONString()` when not pretty and for leaves; indent unchanged |
| EisenwaveWriter.MojangsonWriter.WriteCompound | src/main/java/eisenwave/nbt/io/MojangsonWriter.java:79-124 | writes the compound's layout text, `toMSONString()` when not pretty; indent restored |
| EisenwaveWriter.MojangsonWriter.WriteEntriesInline | src/main/java/eisenwave/nbt/io/MojangsonWriter.java:99-105 | the entries as `key: value` joined by ", ", no separator before the first |
| EisenwaveWriter.MojangsonWriter.WriteEntriesOnLines | src/main/java/eisenwave/nbt/io/MojangsonWriter.java:106-115 | the entries as `key: value` joined by "," and a line end |
| EisenwaveWriter.MojangsonWriter.WriteList | src/main/java/eisenwave/nbt/io/MojangsonWriter.java:126-164 | writes the list's layout text, `toMSONString()` when not pretty; indent restored |
| EisenwaveWriter.MojangsonWriter.WriteElementsInline | src/main/java/eisenwave/nbt/io/MojangsonWriter.java:143-147 | the elements joined by ", " |
| EisenwaveWriter.MojangsonWriter.WriteElementsOnLines | src/main/java/eisenwave/nbt/io/MojangsonWriter.java:148-155 | the elements joined by "," and a line end |
| MeEisenwaveWriter.IsSimpleCompound | src/main/java/me/eisenwave/nbt/io/MojangsonWriter.java:210-218 | the scan returns true exactly when there are at most three entries and every value is primitive |
| MeEisenwaveWriter.MojangsonWriter.constructor | src/main/java/me/eisenwave/nbt/io/MojangsonWriter.java:32-35 | the given `pretty` flag, nothing written, indent 0 |
| MeEisenwaveWriter.MojangsonWriter.Plain | src/main/java/me/eisenwave/nbt/io/MojangsonWriter.java:42-44 | pretty printing off, nothing written, indent 0 |
| MeEisenwaveWriter.MojangsonWriter.Write | src/main/java/me/eisenwave/nbt/io/MojangsonWriter.java:179-187 | the text is passed on unchanged |
| MeEisenwaveWriter.MojangsonWriter.Indent | src/main/java/me/eisenwave/nbt/io/MojangsonWriter.java:157-165 | writes exactly the indentation of the current level |
| MeEisenwaveWriter.MojangsonWriter.EndLn | src/main/java/me/eisenwave/nbt/io/MojangsonWriter.java:172-175 | writes a newline and the indentation of the current level |
| MeEisenwaveWriter.MojangsonWriter.WriteNamedTag | src/main/java/me/eisenwave/nbt/io/MojangsonWriter.java:46-54 | an empty name writes only the value; otherwise the quoted name, ':', a space only when pretty, then the value |
| MeEisenwaveWriter.MojangsonWriter.WriteNamed | src/main/java/me/eisenwave/nbt/io/MojangsonWriter.java:56-58 | the same for an `NBTNamedTag` |
| MeEisenwaveWriter.MojangsonWriter.WriteTag | src/main/java/me/eisenwave/nbt/io/MojangsonWriter.java:60-76 | writes the tag's layout text; `toMSONString()` when not pretty and for leaves; indent unchanged |
| MeEisenwaveWriter.MojangsonWriter.WriteCompound | src/main/java/me/eisenwave/nbt/io/MojangsonWriter.java:79-115 | called directly, writes the compound's layout text whatever the `pretty` flag; indent restored |
| MeEisenwaveWriter.MojangsonWriter.WriteSeparator | src/main/java/me/eisenwave/nbt/io/MojangsonWriter.java:97-102 | ", " when simple, otherwise "," and a line end |
| MeEisenwaveWriter.MojangsonWriter.WriteEntries | src/main/java/me/eisenwave/nbt/io/MojangsonWriter.java:94-106 | the entries as `key: value`, the separator before every entry but the first |
| MeEisenwaveWriter.MojangsonWriter.WriteList | src/main/java/me/eisenwave/nbt/io/MojangsonWriter.java:118-150 | called directly, writes the list's layout text whatever the `pretty` flag; indent restored |
| MeEisenwaveWriter.MojangsonWriter.WriteElements | src/main/java/me/eisenwave/nbt/io/MojangsonWriter.java:131-141 | the elements, the separator before every element but the first |
| MojangsonParseError.EffectiveIndex | src/main/java/me/eisenwave/nbt/io/MojangsonParseException.java:13 | `min(content.length(), index)` |
| MojangsonParseError.ContextStart | src/main/java/me/eisenwave/nbt/io/MojangsonParseException.java:17 | the context starts at most 35 characters back, and exactly 35 back unless it starts at 0 |
| MojangsonParseError.ErrorLoc | src/main/java/me/eisenwave/nbt/io/MojangsonParseException.java:11-21 | a location exists exactly for a non-negative index (a negative one makes `substring` throw) |
| MojangsonParseError.Message | src/main/java/me/eisenwave/nbt/io/MojangsonParseException.java:7-9 | the message is `msg + " at: " + printErrorLoc(content, index)` |
| MojangsonParseError.ErrorLocShape | src/main/java/me/eisenwave/nbt/io/MojangsonParseException.java:14-18 | the location ends with "<--[HERE]"; before it stands "..." and the 35 characters before the effective index when that is past 35, otherwise the whole prefix |
| MojangsonParseError.ContextIsSuffix | src/main/java/me/eisenwave/nbt/io/MojangsonParseException.java:17 | the context is a suffix of the prefix before the effective index, of length min(35, index) |
| MojangsonParseError.PastTheEnd | src/main/java/me/eisenwave/nbt/io/MojangsonParseException.java:13 | an index at or past the end gives the location of the end: the tail of the content |
| MojangsonParseError.EllipsisWhenCut | src/main/java/me/eisenwave/nbt/io/MojangsonParseException.java:14-16 | an effective index past 35 gives a location starting with "..." |
| MojangsonParseError.EllipsisNotOnlyWhenCut | src/main/java/me/eisenwave/nbt/io/MojangsonParseException.java:14-17 | content "..." at index 3 gives a location starting with "..." without any cut |
| MojangsonParseError.MessageStartsWithMsg | src/main/java/me/eisenwave/nbt/io/MojangsonParseException.java:7-9 | the message is the parser's message, then " at: ", then the location |

The named-tag pair `NBTNamedTag` is the datatype `NBTTag.NamedTag`. Its
final fields are datatype fields, so `getName()` and `getTag()` are the field
selectors. `NBTEnd.INSTANCE` is the constant `NBTTag.INSTANCE`. END carries
no payload, which is what `getValue()` returning null means.

## Left out

- The Mojangson parser is not part of this model, and neither are the
  `Serializer`/`Deserializer` adapters, the gzip wrappers and `NBTMatcher`.
- UTF-8 encoding and decoding through `Charset`: names and strings are
  modelled as their encoded bytes.
- Java strings are counted in characters, not UTF-16 code units.
- FLOAT and DOUBLE payloads are carried as 32-bit and 64-bit patterns.
  Their Java text rendering is not modelled. `writeFloat`/`writeDouble`
  go through `floatToIntBits`/`doubleToLongBits`, which turn every NaN into
  one canonical pattern; the encoder writes the stored pattern unchanged, so
  a NaN read with a non-canonical pattern is written back differently by
  the Java code.
- The `toMSONString()` of the STRING, INT, FLOAT, DOUBLE, INT_ARRAY,
  LONG_ARRAY, LIST and COMPOUND classes is not part of the visible core.
  Neither is `NBTString`'s quoting of non-bare keys. These renderings are a
  parameter of the writers (`Renderers`), and the layout is proved for any
  such parameter.
- The compound is an insertion-ordered association list. `HashMap`
  iteration order is not modelled: the writers follow entry order.
- The writers' loops look each key up again with `map.get(key)`. The model
  uses the entry's own value, which is the same thing when keys are
  distinct, as they always are after a `put`.
- `IOException`s of the underlying stream, `flush`/`close`, and
  `write(char[], int, int)` are not modelled. The sinks are sequences that
  are appended to.
- The platform line separator is the constant `"\n"`.
- The two packages' tag classes are merged into one `Tag` datatype.
- NBTTag.NamedTagEquals: tag equality is a parameter. The Java classes
  `NBTByte`, `NBTShort`, `NBTLong`, `NBTByteArray`, `NBTFloat` and
  `NBTDouble` inherit `Object.equals`, which compares object identity, and
  tag values have no identity: two named tags holding distinct objects of
  equal value are unequal in Java. Only END's `equals` is pinned down
  (`NBTValues.NamedEndsEqual`). For the same reason the round-trip lemmas
  state value equality of the tree read back, not Java `equals`.
- `equals(Object)` against objects of other classes does not arise: Dafny's
  types rule it out.
- NBTRoundTrip.NamedRoundTrip: names of 65536 bytes or more are excluded,
  because `writeShort` truncates their length prefix and the tag does not
  read back. Well-formed trees carry only shorter names and keys.
- NBTValues.ByteArrayTag.FromNumbers: the numbers are integers; a `Float` or
  `Double` element narrows through Java's floating-point conversion, which
  is not modelled.
- MojangsonParseError.EllipsisWhenCut: proved in one direction only. The
  converse fails for content that itself starts with "...", as
  `EllipsisNotOnlyWhenCut` shows.
