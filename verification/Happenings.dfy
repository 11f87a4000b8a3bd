/** What happens to the C server: what its clients send, what its sockets answer, and what is to be said to whom. */
module Happenings {
  import opened Bytes
  import opened Connections

  /** Output for another user, delivered if that user is connected. */
  datatype Notice = Notice(to: string, data: seq<Byte>)

  /** What the parser's callbacks can ask of the loop; `Bind` carries what is said to a session it displaces, and what its
      socket answers. */
  datatype Event =
    | Reply(data: seq<Byte>)
    | Deliver(notice: Notice)
    | Login(jid: string)
    | Bind(error: seq<Byte>, answer: Answer, farewell: seq<Notice>)
    | StreamError(error: seq<Byte>, answer: Answer)
    | StreamClose(closing: seq<Byte>)
    | ParseError
    | AccountRemoved

  /** What the loop does to one connection: it is torn down as broken, read, or offered its output. The farewells are what
      is said should it go, `last` what its socket answers to the flush before that. */
  datatype Happening =
    | Broke(conn: Conn, farewell: seq<Notice>)
    | Read(conn: Conn, n: int, script: seq<Event>, last: Answer, farewell: seq<Notice>)
    | Flushed(conn: Conn, answer: Answer, farewell: seq<Notice>)
}
