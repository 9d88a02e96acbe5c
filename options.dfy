/** The optional value used for reads that may fall outside a buffer and for
    results that may be absent (JavaScript's `undefined`). */
module Options {

  datatype Option<+T> = None | Some(value: T)

}
