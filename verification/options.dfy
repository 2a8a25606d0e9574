/** The optional value used for results that may be absent: a record that was
    not found, a read that ran off the end of a stream. */
module Options {

  datatype Option<+T> = None | Some(value: T)
}
