/** The usual optional value, used for the client's session pointer, its
    pending timer and the result of inbound routing. */
module Optional {
  datatype Option<+T> = None | Some(value: T)
}
