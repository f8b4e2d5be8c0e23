/** The conventional optional value; used for the optional prefix of a qualified name and for
    how the host reads a nullable value back. */
module Options {

  datatype Option<T> = None | Some(value: T)

}
