/** Shared by the components of the server. A C char, or a byte of a stream, is a char. */
module CommonTypes {

  datatype Option<T> = None | Some(value: T)

  const INT_MAX := 0x7fff_ffff
}
