/**
 * The per-connection decorator (`IoConnection`) that the server hands to the
 * application instead of the raw React connection.
 */
module Connection {

  newtype uint8 = x: int | 0 <= x < 256

  /** A chunk of bytes as read from the socket (a PHP string). */
  type Bytes = seq<uint8>

  /**
   * A raw transport connection as the socket server announces it: `stream` is
   * the integer id of the underlying stream resource (what `(int)$conn->stream`
   * yields) and `remoteAddress` what `getRemoteAddress()` reports.
   */
  datatype RawConn = RawConn(stream: int, remoteAddress: string)

  /** The decorator: the connection's identity and its peer address. */
  datatype Decor = Decor(resourceId: int, remoteAddress: string)

  /** Builds the decorator of a freshly accepted connection. */
  function Decorate(c: RawConn): Decor
  {
    Decor(c.stream, c.remoteAddress)
  }

  /** The raw connection a decorator stands for, recovered from its fields. */
  function Undecorate(d: Decor): RawConn
  {
    RawConn(d.resourceId, d.remoteAddress)
  }
}
