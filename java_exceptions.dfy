/** The exceptions the modelled code throws, by kind, with the message where the code builds one. */
module JavaExceptions {
  import opened Wrappers

  datatype Exception =
    | IllegalArgument(message: string)   // IllegalArgumentException
    | Runtime(message: string)           // RuntimeException
    | NullPointer                        // unboxing, dereferencing or switching on null
    | ClassCast                          // a cast of a mapping value to String or Map that fails
    | IndexOutOfBounds                   // indexing the last element of an empty array or list
    | IO(message: string)                // IOException
    | RuntimeWrapping(prefix: string, cause: Exception)  // new RuntimeException(prefix + cause.getMessage(), cause)
    | RuntimeCause(cause: Exception)     // new RuntimeException(cause)

  /** `"" + o` for a possibly-null string: Java prints null as "null". */
  function JavaString(o: Option<string>): string {
    if o.None? then "null" else o.value
  }
}
