/** Small value types shared by every part of the model. */
module Common {

  /** A JavaScript value that may be `undefined`. */
  datatype Option<+T> = None | Some(value: T)

  /** The outcome of a call that may throw: `Err` stands for the thrown error. */
  datatype Result<+T, +E> = Ok(value: T) | Err(error: E)

  /** The outcome of a call that returns nothing useful but may throw. */
  datatype Outcome<+E> = Pass | Fail(error: E)

  /** The value of an `Option` as a sequence of zero or one elements. */
  function Elements<T>(o: Option<T>): (r: seq<T>)
    ensures o.None? ==> r == []
    ensures o.Some? ==> r == [o.value]
  {
    match o
    case None => []
    case Some(v) => [v]
  }

  /** A port `net.Server.listen` accepts: an integer in 0..65535 (otherwise it throws ERR_SOCKET_BAD_PORT). */
  predicate ValidPort(port: int) {
    0 <= port <= 65535
  }

  /** The port of a parsed URL, always a valid one. */
  type Port = p: int | ValidPort(p)

  /** One octet of a Node.js `Buffer`. */
  type byte = x: int | 0 <= x < 256
}
