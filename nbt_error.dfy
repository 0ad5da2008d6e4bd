/** The failures of the binary codec (each an `IOException` or a runtime
    exception in the source) and the result types that carry them. */
module NBTErrors {

  datatype Error =
    /** `EOFException`: the stream ended inside a name or a payload. */
    | UnexpectedEndOfStream
    /** `values()[id]` out of bounds in `NBTType.getById`; carries the
        signed byte that was looked up. */
    | InvalidTypeId(id: int)
    /** "TAG_End found without a TAG_Compound/TAG_List tag preceding it." */
    | EndAtTopLevel
    /** "List is of type TAG_End but not empty" */
    | NonEmptyEndList
    /** The stream ended where a compound expected its next entry. */
    | EndsInsideCompound
    /** `new byte[length]` (or `int[]`, `long[]`) with a negative length. */
    | NegativeArraySize(length: int)
    /** "Named TAG_End not permitted." */
    | NamedEnd

  datatype Result<T> = Ok(value: T) | Err(error: Error)

  datatype Outcome = Pass | Fail(error: Error)
}
