/**
 * The application side of the server: the four callbacks of a message
 * component and an oracle that decides, call by call, whether a callback
 * returns or throws.
 */
module Application {
  import opened Connection

  /** An exception raised by application code. */
  datatype Exn = Exn(message: string)

  /** One call the server makes on the application. */
  datatype Call =
    | OnOpen(conn: Decor)
    | OnMessage(conn: Decor, msg: Bytes)
    | OnClose(conn: Decor)
    | OnError(conn: Decor, e: Exn)

  /** How a callback ends: it returns normally or it throws. */
  datatype Reply = Returns | Throws(e: Exn)

  /**
   * The application as an oracle. `app(n, c)` is the reply to call `c` when it
   * is the n-th call (counting from 0) the server makes on the application, so
   * an application whose behaviour depends on its history can be expressed.
   */
  type App = (nat, Call) -> Reply
}
