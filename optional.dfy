/** A value that may be absent: JavaScript's `null`/`undefined` where the
    source distinguishes them from a present value. */
module Optional {

  datatype Option<+T> = None | Some(value: T)
}
